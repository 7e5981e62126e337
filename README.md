# AI Insight Pro — a Dafny model of the detection core

AI Insight Pro is a Next.js application that scores an uploaded image for
"AI-generation likelihood". This project models its core in Dafny:

- the mock detector `analyzeImage` (lib/analysis.ts): a file-name and image-characteristics gate, random model scores and category maxima;
- the pixel scans behind it: `analyzeImageCharacteristics` (lib/image-analysis.ts), compression-artifact detection, block edge variance and dominant colours (lib/image-utils.ts), and the perceptual hash (lib/hash.ts);
- the mapping of a Sightengine response onto the result record (lib/sightengine-integration.ts);
- the two upload handlers, `POST /api/analyze` and `POST /api/batch`, with their validation order, status codes and messages;
- the analysis history kept in browser storage (lib/history.ts), as a class whose one field is the storage slot;
- the computations of the React components:
  - report card bands and lists;
  - chart data;
  - colour histograms;
  - quality score;
  - technical-detail indicators;
  - history search;
  - the batch panel's state;
  - the inspector's and the comparison view's zoom, pan and rotation state;
  - the progress bar and the step list.

Every module has one file. Shared helpers are in `common.dfy` (Option, bytes, ASCII lower-casing, substring search, filtering, counting). Two more shared files:

- `ranking.dfy`: the stable descending sort behind every "sort by score" in the program.
- `results.dfy`: a JavaScript object used as a score map, an insertion-ordered list of entries.

The model takes several things as parameters instead of computing them:

- Randomness: `Math.random` is a stream of reals in [0, 1), consumed in the order the source draws.
- `Date.now` and the outcome of a storage write.
- The result of image decoding and of a canvas draw.
- The outcome of a network request.

Pure code is modelled as functions. The loops become methods with invariants, proved equal to a specification function:

- the canvas scans;
- the hash;
- the colour count;
- the histogram.

Components that keep state become classes whose methods update fields:

- the history store;
- the batch panel;
- the inspector;
- the comparison viewer.

## Model

| member | source | states |
|---|---|---|
| Common.Pick | lib/analysis.ts:139 | `Math.floor(Math.random() * k)` for a draw in [0, 1) lies in [0, k) |
| Common.Lower | lib/analysis.ts:65 | lower-casing keeps the length and maps every character through the ASCII lower-case table |
| Common.LowerIdempotent | app/components/HistoryPanel.tsx:28-32 | lower-casing an already lower-cased string changes nothing |
| Common.ContainsAt | lib/analysis.ts:106-108 | `includes` holds whenever the needle occurs at some position |
| Common.ContainsWitness | lib/analysis.ts:106-108 | when `includes` holds, a position where the needle occurs exists |
| Common.ContainsEmpty | app/components/HistoryPanel.tsx:27 | every string includes the empty string |
| Common.Filter | app/components/ReportCard.tsx:155 | `Array.filter` keeps only elements of the input that satisfy the predicate |
| Common.FilterKeeps | app/components/ReportCard.tsx:155 | every input element that satisfies the predicate survives the filter |
| Common.FilterIsSubsequence | app/components/HistoryPanel.tsx:28-32 | a filter keeps the input order |
| Common.MaxOf | lib/analysis.ts:194-198 | `Math.max(...values)` of a non-empty list is one of the values and bounds them all |
| Common.SliceTo | lib/image-utils.ts:252 | `slice(0, end)` keeps a prefix: `min(end, n)` long for `end >= 0` and `n + end` for a negative `end` |
| Common.Decimal | lib/history.ts:25 | the decimal text of a number is non-empty and all digits |
| Ranking.SortDescFacts | app/components/ReportCard.tsx:156 | the descending sort is a permutation of its input, ordered by non-increasing key, of the same length |
| Ranking.InsertFacts | app/components/ReportCard.tsx:156 | one insertion step keeps the order and adds exactly the inserted element |
| Ranking.InsertMultiset | app/components/ReportCard.tsx:156 | one insertion step adds exactly the inserted element |
| Ranking.InsertSorted | app/components/ReportCard.tsx:156 | one insertion step into a non-increasing list keeps it non-increasing |
| Ranking.SortDescMembers | app/components/ReportCard.tsx:156 | sorting neither adds nor loses an element |
| Ranking.SortDescMap | app/components/ChartView.tsx:25-32 | mapping then sorting equals sorting then mapping when the key is preserved, so ChartView's map-then-sort order matches the report's sort-then-map order |
| Results.Get | lib/analysis.ts:204-205 | a lookup misses exactly when the key is absent and otherwise returns the stored value |
| Results.Put | lib/analysis.ts:120 | an assignment grows the object by at most one entry |
| Results.PutNames | lib/analysis.ts:120-136 | assigning a new key appends it to the key order; assigning an existing key keeps the order |
| Results.PutGet | lib/analysis.ts:120-121 | after an assignment the key reads back the new value and every other key reads as before |
| Results.PutNew | lib/analysis.ts:124 | assigning an absent key appends one entry |
| Results.PutKeepsDistinct | lib/analysis.ts:120-136 | keys stay distinct under assignment |
| History.MakeId | lib/history.ts:25 | an id starts with `analysis-` |
| History.Prepend | lib/history.ts:33-38 | the new item goes first, the old items follow in order, and the list is cut to 100 |
| History.IndexOf | lib/history.ts:105 | `find` returns the first item with the id, or nothing exactly when no item has it |
| History.Find | lib/history.ts:66-69 | a found item has the requested id and is in the history; nothing is found exactly when no item has the id |
| History.WithoutKeepsOthers | lib/history.ts:76 | deleting keeps exactly the items with another id, in their order |
| History.WithNotes | lib/history.ts:103-118 | setting notes keeps the length of the history |
| History.WithNotesChangesFirstMatch | lib/history.ts:105-109 | setting notes changes only the first item with the id, and only its notes; with no such item nothing changes |
| History.HistoryStore.constructor | lib/history.ts:17 | storage starts without the history key |
| History.HistoryStore.GetHistory | lib/history.ts:52-61 | reading gives the stored list, or the empty list when the key is absent or does not parse |
| History.HistoryStore.Save | lib/history.ts:23-47 | saving returns the new id; a successful write stores the new item in front of what was readable, cut to 100; a failed write leaves storage unchanged |
| History.HistoryStore.GetItem | lib/history.ts:66-69 | the first stored item with the id, or nothing exactly when no stored item has it |
| History.HistoryStore.Delete | lib/history.ts:74-85 | a successful write stores the list without the id and reports true; a failed one reports false and changes nothing |
| History.HistoryStore.Clear | lib/history.ts:90-98 | a successful removal empties storage and reports true; a failed one reports false |
| History.HistoryStore.UpdateNotes | lib/history.ts:103-118 | an unknown id reports false and changes nothing; a known id stores the list with the first match's notes replaced and reports whether the write succeeded |
| History.ClearThenRead | lib/history.ts:90-98 | reading after a successful clear gives the empty history |
| PerceptualHash.Grays | lib/hash.ts:76-83 | one gray value per pixel |
| PerceptualHash.HashBits | lib/hash.ts:88-91 | one hash bit per pixel |
| PerceptualHash.BinValue | lib/hash.ts:96-97 | `parseInt(bits, 2)` of n bits is below 2^n |
| PerceptualHash.HexStringLength | lib/hash.ts:94-98 | the hex text has one digit per started group of four bits |
| PerceptualHash.HexStringAppend | lib/hash.ts:94-98 | the hex text of a four-aligned concatenation is the concatenation of the hex texts |
| PerceptualHash.HexStringStep | lib/hash.ts:95-97 | one loop step appends the digit of the next (possibly short) nibble |
| PerceptualHash.PerceptualHashHex | lib/hash.ts:76-98 | the three loops compute the hex text of the per-pixel above-average bits, with the grays and their mean in exact arithmetic |
| PerceptualHash.GrayPass | lib/hash.ts:76-83 | the gray loop yields one gray per pixel and their running sum, both exact |
| PerceptualHash.BitPass | lib/hash.ts:88-91 | the bit loop writes 1 exactly for a gray strictly above the mean, 0 otherwise |
| PerceptualHash.HexPass | lib/hash.ts:94-98 | the hex loop writes the hex text of the bits |
| PerceptualHash.NibbleOfBits | lib/hash.ts:97 | the binary digits of `8·x0 + 4·x1 + 2·x2 + x3` are x0 to x3 |
| PerceptualHash.BitMeansAboveAverage | lib/hash.ts:90 | a bit is 1 exactly when the pixel's gray is strictly above the mean; a gray equal to the mean gives 0 |
| PerceptualHash.SumOfGrays | lib/hash.ts:76-85 | the sum of the grays is the channel sum divided by three |
| PerceptualHash.AverageInIntegers | lib/hash.ts:85 | the mean is the channel sum over three times the pixel count |
| PerceptualHash.BitInIntegers | lib/hash.ts:90 | a bit is 1 exactly when pixel count times the pixel's channel sum exceeds the total channel sum |
| PerceptualHash.AboveMeanInIntegers | lib/hash.ts:85-90 | the real-valued comparison with the mean equals an integer comparison |
| PerceptualHash.MeanComparison | lib/hash.ts:85-90 | comparing a gray with the mean equals comparing cross-multiplied integers |
| PerceptualHash.NotAllAboveMean | lib/hash.ts:85-90 | pixels all strictly above a bound sum to more than the bound times their count |
| PerceptualHash.HashHasZeroBit | lib/hash.ts:88-91 | with the exact mean, a non-empty image always has at least one 0 bit: not every pixel can be above the mean |
| PerceptualHash.EightByEightLength | lib/hash.ts:67-73 | the 8×8 canvas gives 64 bits and 16 hex digits |
| PerceptualHash.AlphaIgnored | lib/hash.ts:80 | the hash does not depend on the alpha bytes |
| PerceptualHash.NibbleOfValue | lib/hash.ts:97 | four bits read as a number and written back give the same bits |
| PerceptualHash.HexRoundTrip | lib/hash.ts:94-98 | decoding the hex text of a four-aligned bit string gives back the bits |
| PerceptualHash.HashRoundTrip | lib/hash.ts:88-98 | for whole nibbles, the hash hex text determines the hash bits |
| ImageAnalysis.CanvasNotEmpty | lib/image-analysis.ts:50-55 | a non-empty image gives a non-empty canvas |
| ImageAnalysis.CanvasPixels | lib/image-analysis.ts:50-55 | the canvas of a decoded non-empty image holds whole RGBA pixels, at least one |
| ImageAnalysis.ColorAndEdgePass | lib/image-analysis.ts:62-81 | the first loop computes the pixel count, the set of distinct colours and the number of edge pixels |
| ImageAnalysis.EdgeCheck | lib/image-analysis.ts:70-80 | the edge test of one pixel: interior and more than 30 away from the pixel before it |
| ImageAnalysis.SkinTonePass | lib/image-analysis.ts:88-99 | the second loop counts skin-tone pixels |
| ImageAnalysis.ScanCanvas | lib/image-analysis.ts:57-111 | the load handler once the image is drawn yields the scan specification of the canvas |
| ImageAnalysis.AnalyzeCharacteristics | lib/image-analysis.ts:20-123 | the whole function equals its specification: defaults on the server and on load errors, no size without a context, ratios otherwise |
| ImageAnalysis.DistinctColorsBounds | lib/image-analysis.ts:83 | at least one and at most one distinct colour per pixel, so colour complexity lies in (0, 1] |
| ImageAnalysis.EdgeCountPrefixBound | lib/image-analysis.ts:71-80 | an edge needs a right neighbour, so a prefix of n pixels holds at most n − 2 edges |
| ImageAnalysis.EdgeCountBound | lib/image-analysis.ts:71-80 | at most n − 2 edge pixels, so edge density stays below 1 |
| ImageAnalysis.TenthComparison | lib/image-analysis.ts:101 | the face test `ratio > 0.1` equals the integer comparison `10·skin > total` |
| ImageAnalysis.ScannedProperties | lib/image-analysis.ts:83-111 | every ratio lies in [0, 1]; faces exactly when skin tones exceed a tenth of the pixels; no text; the natural size is reported |
| ImageAnalysis.OutcomeProperties | lib/image-analysis.ts:20-123 | server and load error give the 1920×1080 defaults; no context gives defaults without size; the result is missing exactly for an empty decoded image |
| ImageAnalysis.AlphaIgnored | lib/image-analysis.ts:62-99 | the characteristics do not depend on the alpha bytes |
| ImageUtils.WholePixel | lib/image-utils.ts:182-183 | a pixel's first byte in range means its three colour bytes are in range |
| ImageUtils.PixelDiff | lib/image-utils.ts:186-190 | the channel difference of two pixels is at most 765 |
| ImageUtils.EdgeVariance | lib/image-utils.ts:170-196 | the loop computes the specification's mean difference across the block boundary |
| ImageUtils.VarianceSumBounds | lib/image-utils.ts:181-193 | the accumulated difference is between 0 and 255 per counted pair |
| ImageUtils.NoPairNoCount | lib/image-utils.ts:185 | when no pair is inside the buffer nothing is counted |
| ImageUtils.EdgeVarianceRange | lib/image-utils.ts:195 | edge variance lies in [0, 1] and is 0 when no pair is inside the buffer |
| ImageUtils.VarianceSumLocal | lib/image-utils.ts:181-193 | the loop reads only the two boundary rows |
| ImageUtils.EdgeVarianceLocal | lib/image-utils.ts:170-196 | edge variance depends only on the two rows either side of the block boundary |
| ImageUtils.BlockStepsMeaning | lib/image-utils.ts:131-132 | a block index is visited exactly when `8·j < n − 8` |
| ImageUtils.ScanBlockRow | lib/image-utils.ts:132-144 | the inner loop counts the flagged blocks of one block row |
| ImageUtils.ScanBlocks | lib/image-utils.ts:130-145 | the nested loops count all flagged blocks |
| ImageUtils.DetectArtifacts | lib/image-utils.ts:103-168 | the function equals its specification: rejection without a context, no settlement for an empty image, the report otherwise |
| ImageUtils.LowDensityInIntegers | lib/image-utils.ts:152-154 | fewer than half a byte per pixel equals `2·size < pixels` |
| ImageUtils.ArtifactVerdict | lib/image-utils.ts:141-163 | artifacts exactly when three blocks are flagged, or one block with less than half a byte per pixel (the double-rounded `artifactScore > 0.3`); confidence at most 100; the block message exactly above five blocks; the density message exactly for low density; block message first |
| ImageUtils.ArtifactThresholds | lib/image-utils.ts:141-160 | the verdict is "score above three tenths" except at exactly three blocks without low density, where the double sum 0.30000000000000004 already exceeds 0.3; low density alone never reports artifacts |
| ImageUtils.Quantize | lib/image-utils.ts:241-243 | a quantised channel is a multiple of 32, at most 224, and the start of the value's 32-wide bucket |
| ImageUtils.FirstOccurrences | lib/image-utils.ts:246 | the map's key order holds each key once, and every key that occurs |
| ImageUtils.FirstOccurrencesOrder | lib/image-utils.ts:234-246 | the map lists its keys in the order of the first pixel that has each key |
| ImageUtils.Hex2 | lib/image-utils.ts:256 | two lower-case hex digits, high nibble first |
| ImageUtils.HexColor | lib/image-utils.ts:255-257 | seven characters starting with `#` |
| ImageUtils.HexColorDigits | lib/image-utils.ts:255-257 | every character after the `#` is a lower-case hex digit |
| ImageUtils.HexColorChannels | lib/image-utils.ts:255-257 | red, green and blue appear in that order, two zero-padded digits each |
| ImageUtils.CountColors | lib/image-utils.ts:233-247 | the counting loop builds a map from each key to its number of occurrences, with keys in first-seen order |
| ImageUtils.Tally | lib/image-utils.ts:246 | one `set` counts the key once more and appends it to the key order only when it is new |
| ImageUtils.DominantColors | lib/image-utils.ts:201-265 | the function equals its specification: the top `count` colours by frequency as hex text |
| ImageUtils.CountsAddUp | lib/image-utils.ts:235-247 | the counts of the distinct keys add up to the number of keys |
| ImageUtils.TotalFrequencyIsSumOver | lib/image-utils.ts:250 | the entries' frequencies sum as the counts do |
| ImageUtils.FrequenciesSumToPixels | lib/image-utils.ts:235-247 | the frequencies add up to the pixel count |
| ImageUtils.QuantizedChannels | lib/image-utils.ts:241-243 | every key's channel is its pixel's channel rounded down to a multiple of 32 |
| ImageUtils.DominantColorsProperties | lib/image-utils.ts:249-252 | the top entries number `min(count, n)` for a non-negative count and `max(0, n + count)` for a negative one (n distinct keys); they are sorted by frequency, at least as frequent as any entry left out, entries of the map, and no colour appears twice |
| ImageUtils.TopColorsDistinct | lib/image-utils.ts:249-251 | no colour appears twice among the top entries |
| ImageUtils.DominantColorsFormat | lib/image-utils.ts:253-258 | each result is `#` and the two-digit hex of r, g and b of a top colour |
| Analysis.Fill | lib/analysis.ts:124-136 | a rule table writes its names in order, each value in `[base, base + span)` |
| Analysis.FillBelow | lib/analysis.ts:160-192 | every value written by a table whose ranges end at `bound` is below it |
| Analysis.NamesAppend | lib/analysis.ts:120-136 | the keys and values of appended entries are the concatenations |
| Analysis.TablesBelow100 | lib/analysis.ts:124-192 | every table draws below 100 and none writes `Wan` a second time |
| Analysis.HighScores | lib/analysis.ts:111-122 | high branch: overall in [85, 99]; Wan, when written, in [85, overall]; always written for a `test` name or faces with complexity above 0.25 |
| Analysis.LowScores | lib/analysis.ts:139-144 | low branch: overall in [0, 89]; without Wan at most 29; Wan only with faces and in [60, overall] |
| Analysis.MockDiffusion | lib/analysis.ts:105-157 | the gate chooses the range of overall; Wan comes first and never exceeds overall; all values in [0, 99] |
| Analysis.CategoriesOf | lib/analysis.ts:194-210 | genai is the maximum of the diffusion, GAN and LLM scores; face manipulation is at least deepfake; style transfer is the larger of its two keys; all capped at 100 |
| Analysis.ValueOr0InRange | lib/analysis.ts:199-210 | `m[key] \|\| 0` stays in [0, 99] when every value does |
| Analysis.CategoriesInRange | lib/analysis.ts:194-257 | every category of a mock result lies in [0, 99] |
| Analysis.MockTechnicalDetails | lib/analysis.ts:213-246 | dimensions default to 1920×1080; the compression ratio and entropy formulas; anomalies exactly above 70; four history steps, the last by overall; face and text counts exactly with faces and text, in [1, 3] and [1, 5]; noise, sharpness and artifact ranges |
| Analysis.AnalyzeImage | lib/analysis.ts:58-265 | the overall range follows the gate; the model tables are written in source order; the categories are the maxima of the tables; technical details are present |
| Analysis.MockTables | lib/analysis.ts:159-192 | the GAN, LLM, manipulation and other tables hold their keys in source order, every value in [0, 99] |
| Analysis.HighBranchIgnoresCase | lib/analysis.ts:65 | the gate ignores the ASCII case of the file name |
| Analysis.AiAnywhereIsHigh | lib/analysis.ts:105-110 | a name with `ai` in either case at any position, even inside a word such as `portrait`, always takes the high branch |
| Analysis.PlainNameNeedsCharacteristics | lib/analysis.ts:99-110 | a name with no `a` and no `e` in either case contains no keyword, so it takes the high branch exactly when the characteristics look generated |
| Analysis.MissingCharacter | lib/analysis.ts:106-108 | a string lacking a character of the needle does not include it |
| Sightengine.Percent | lib/sightengine-integration.ts:79 | `Math.round(x * 100)` of a score in [0, 1] lies in [0, 100] |
| Sightengine.CopiedMeaning | lib/sightengine-integration.ts:83-139 | the copied diffusion entries are exactly the present fields, under their display names, rounded to percent |
| Sightengine.DisplayNamesDistinct | lib/sightengine-integration.ts:83-139 | no two response fields share a display name |
| Sightengine.CopyField | lib/sightengine-integration.ts:85-137 | one conditional copies one more field |
| Sightengine.CopyDiffusion | lib/sightengine-integration.ts:83-139 | the conditionals copy exactly the present diffusion fields |
| Sightengine.Transform | lib/sightengine-integration.ts:59-177 | genai and diffusion only from a genai object; StyleGAN only from its field; deepfake or 0; face manipulation at least deepfake; overall the larger of genai and face manipulation; other categories 0; no technical details |
| Sightengine.CopyGenai | lib/sightengine-integration.ts:77-147 | the genai block sets genai, the copied diffusion fields and StyleGAN, and nothing else |
| Sightengine.CopyDeepfake | lib/sightengine-integration.ts:149-154 | a deepfake score sets deepfake, face manipulation and the Deepfake entry to the same percentage |
| Sightengine.CopyFaceManipulation | lib/sightengine-integration.ts:156-167 | a face manipulation score sets face manipulation to the larger of it and the deepfake-derived value; without one nothing changes |
| Sightengine.TransformInRange | lib/sightengine-integration.ts:170-174 | with provider scores in [0, 1], overall and every category lie in [0, 100] |
| AnalyzeRoute.OrElse | app/api/analyze/route.ts:66-69 | a form value falls back to the environment value, and the result is usable exactly when one of them is |
| AnalyzeRoute.Validate | app/api/analyze/route.ts:22-45 | missing file, bad type, then size above 10 MiB, each a 400 with its message; accepted exactly when present, allowed and small enough |
| AnalyzeRoute.ValidationOrder | app/api/analyze/route.ts:30-45 | the type check comes before the size check; exactly 10 MiB passes and one byte more fails |
| AnalyzeRoute.Post | app/api/analyze/route.ts:22-98 | validation errors are returned as they are; `null` settings give a 500; otherwise success, from Sightengine when chosen and configured, or the mock with technical details |
| AnalyzeRoute.MockOnServer | lib/analysis.ts:80-110 | on the server the gate depends on the name alone: overall in [85, 99] for a keyword, [0, 29] otherwise |
| BatchRoute.FirstOffender | app/api/batch/route.ts:31-44 | the first file of bad type or size, or none exactly when all pass |
| BatchRoute.CheckFiles | app/api/batch/route.ts:31-44 | the loop rejects with a 400 naming the first offending file |
| BatchRoute.FirstIsAt | app/api/batch/route.ts:31-44 | a failing file preceded only by passing files is the first offender |
| BatchRoute.Post | app/api/batch/route.ts:13-79 | no files and more than 10 files are 400s; success exactly with 1 to 10 acceptable files; one result per file, in order, successful exactly when its metadata read succeeds; the summary counts add up |
| BatchRoute.CountsSplit | app/api/batch/route.ts:73-79 | successful and failed results add up to the total |
| ReportCard.ScoreBands | app/components/ReportCard.tsx:14-36 | high above 70, moderate in (40, 70], low otherwise; colour, background and icon change exactly where the label does |
| ReportCard.CategoryRowsShown | app/components/ReportCard.tsx:65-144 | the six category rows in order, each with its value |
| ReportCard.CategoryRowMember | app/components/ReportCard.tsx:65-144 | a row is shown exactly when it is one of the two fixed rows or a positive optional one |
| ReportCard.ListedMeaning | app/components/ReportCard.tsx:154-157 | a listed table is exactly the positive entries, as a permutation of the filter, by descending score |
| ReportCard.TopManipulationsMeaning | app/components/ReportCard.tsx:227-231 | at most ten positive manipulations, the highest ones, by descending score |
| ReportCard.NoneSkipped | app/components/ReportCard.tsx:227-231 | no positive manipulation left out of the ten is higher than one shown |
| ReportCard.SortedPrefix | app/components/ReportCard.tsx:230 | a prefix of a descending list is descending and no later element is larger |
| ReportCard.ListedNonEmpty | app/components/ReportCard.tsx:170-171 | a list is non-empty exactly when some score is positive |
| ReportCard.SectionsShown | app/components/ReportCard.tsx:148-256 | each table's section shows exactly when it has a positive score; the diffusion section shows when the table is non-empty, even without a positive score |
| ReportCard.SectionMembers | app/components/ReportCard.tsx:170-247 | the same conditions stated on the tables |
| ReportCard.InSections | app/components/ReportCard.tsx:148-256 | a section is shown exactly under its own condition |
| ChartView.Shorten | app/components/ChartView.tsx:28 | names over the limit are cut to the limit and get `...`; others are kept |
| ChartView.DiffusionMatchesReport | app/components/ChartView.tsx:25-32 | the diffusion chart lists the report card's entries in the same order |
| ChartView.PointsMeaning | app/components/ChartView.tsx:74-104 | every chart point is a positive entry with a shortened name; at most ten manipulations |
| ChartView.PlainDataInOrder | app/components/ChartView.tsx:74-91 | the GAN and LLM charts keep the table order |
| ChartView.RadarData | app/components/ChartView.tsx:35-71 | seven axes out of 100, with overall and the six categories |
| ColorHistogram.Histogram | app/components/ColorHistogram.tsx:39-47 | a channel histogram has 256 bins |
| ColorHistogram.ChannelHistograms | app/components/ColorHistogram.tsx:39-47 | the loop fills each channel's 256 bins with the count of pixels having each value |
| ColorHistogram.Count | app/components/ColorHistogram.tsx:44-46 | one step adds the next pixel to its bin |
| ColorHistogram.HistogramSum | app/components/ColorHistogram.tsx:43-47 | every channel's bins add up to the pixel count |
| ColorHistogram.AlphaIgnored | app/components/ColorHistogram.tsx:44-46 | the histograms do not depend on the alpha bytes |
| ColorHistogram.BinsBounded | app/components/ColorHistogram.tsx:32-33 | on the canvas of at most 200×200, no bin exceeds 40000 |
| ColorHistogram.Largest | app/components/ColorHistogram.tsx:50 | the normaliser is the largest bin of the three channels |
| ColorHistogram.Normalise | app/components/ColorHistogram.tsx:50-55 | no result exactly when every bin is 0, which happens only for the empty canvas on which the source throws before dividing |
| ColorHistogram.ScaleMeaning | app/components/ColorHistogram.tsx:52-54 | a scaled bin lies in [0, 100]; the largest bin becomes 100; order is kept both ways |
| ColorHistogram.NormaliseMeaning | app/components/ColorHistogram.tsx:50-55 | all normalised bins lie in [0, 100]; the largest bin of any channel becomes 100; bin order is kept |
| ColorHistogram.EmptyCanvasHasNoHistogram | app/components/ColorHistogram.tsx:36-55 | the largest bin is 0 exactly for an empty canvas, the one case where `getImageData` throws and no histogram is set |
| ColorHistogram.EveryFourthFrom | app/components/ColorHistogram.tsx:131 | the sampling filter keeps elements whose index is a multiple of four |
| ColorHistogram.EveryFourthMeaning | app/components/ColorHistogram.tsx:131 | sampling keeps ⌈n/4⌉ bars, bar i being bin 4i; 256 bins give 64 bars |
| QualityMetrics.RatioOfBytesPerPixel | app/components/ImageQualityMetrics.tsx:27-29 | the compression ratio is 100/3 of the bytes per pixel |
| QualityMetrics.PenaltiesExclusive | app/components/ImageQualityMetrics.tsx:70-71 | the low-density and high-ratio penalties never both apply |
| QualityMetrics.QualityScore | app/components/ImageQualityMetrics.tsx:67-73 | 100 minus 20 for artifacts, 15 for low density and 10 for a high ratio, between 55 and 100 |
| QualityMetrics.ImageQualityScore | app/components/ImageQualityMetrics.tsx:26-73 | a real image scores 65 to 100, at least 85 without artifacts, 100 exactly when no penalty applies |
| QualityMetrics.LevelBands | app/components/ImageQualityMetrics.tsx:76-83 | levels rise with the score; the bar colour changes exactly with the level; a score of 65 or more is Excellent or Good |
| TechnicalDetailsView.FileSizeUnits | app/components/TechnicalDetails.tsx:34-38 | bytes below 1024 stay bytes, then KB below 1 MiB, then MB; a larger size never gets a smaller unit |
| TechnicalDetailsView.IndicatorMonotone | app/components/TechnicalDetails.tsx:40-47 | a larger value never gets a worse indicator |
| TechnicalDetailsView.InvertedIndicators | app/components/TechnicalDetails.tsx:113 | more noise or compression never gets a better indicator |
| TechnicalDetailsView.MockIndicators | app/components/TechnicalDetails.tsx:104-215 | the indicators the mock values can reach |
| TechnicalDetailsView.PanelsByLevel | app/components/TechnicalDetails.tsx:132-257 | content from intermediate, artifacts from advanced, anomalies and history at advanced when non-empty; a higher level shows more |
| TechnicalDetailsView.NumberedSteps | app/components/TechnicalDetails.tsx:249-255 | the steps are numbered from 1, in order |
| HistoryPanel.SearchMeaning | app/components/HistoryPanel.tsx:26-37 | the search keeps exactly the items whose name or notes include the term, ignoring ASCII case, in history order; an empty term keeps all |
| HistoryPanel.SearchIgnoresCase | app/components/HistoryPanel.tsx:28-32 | searching for a term and for its ASCII lower-cased form give the same list |
| HistoryPanel.NoNotesMatchesByName | app/components/HistoryPanel.tsx:30-31 | an item without notes matches by its name alone |
| BatchProcessor.PreviewMap | app/components/BatchProcessor.tsx:34-42 | there is a preview exactly for the names of the selected files, each the data URL of the last file with that name |
| BatchProcessor.Panel.constructor | app/components/BatchProcessor.tsx:18-23 | the panel starts empty and idle |
| BatchProcessor.Panel.Select | app/components/BatchProcessor.tsx:25-43 | no selection changes nothing; a selection keeps the first ten files and clears results and errors; a non-empty one stores their previews, an empty one leaves the previews as they were |
| BatchProcessor.Panel.RemoveFile | app/components/BatchProcessor.tsx:45-52 | the file at the index goes, and so does the preview under its name, for every file with that name |
| BatchProcessor.Panel.Process | app/components/BatchProcessor.tsx:54-84 | nothing happens without files; otherwise processing ends with the delivered results or the error message |
| BatchProcessor.Panel.Clear | app/components/BatchProcessor.tsx:86-94 | files, previews, results and error are all reset |
| ImageInspector.RotationCycle | app/components/ImageInspector.tsx:32 | a rotation stays a quarter turn, changes the angle, and four rotations return to the start |
| ImageInspector.Inspector.constructor | app/components/ImageInspector.tsx:17-21 | zoom 1, no offset, no drag, no rotation |
| ImageInspector.Inspector.ZoomIn | app/components/ImageInspector.tsx:25 | zoom rises by 0.25, capped at 5; nothing else changes |
| ImageInspector.Inspector.ZoomOut | app/components/ImageInspector.tsx:26 | zoom falls by 0.25, floored at 0.25; nothing else changes |
| ImageInspector.Inspector.Reset | app/components/ImageInspector.tsx:27-31 | zoom, offset and rotation return to the start; the drag state is kept |
| ImageInspector.Inspector.Rotate | app/components/ImageInspector.tsx:32 | a quarter turn; nothing else changes |
| ImageInspector.Inspector.MouseDown | app/components/ImageInspector.tsx:34-39 | dragging starts only above zoom 1 and records the pointer relative to the offset |
| ImageInspector.Inspector.MouseMove | app/components/ImageInspector.tsx:41-48 | the offset follows the pointer only while dragging above zoom 1 |
| ImageInspector.Inspector.MouseUp | app/components/ImageInspector.tsx:50-52 | dragging ends |
| ImageInspector.Inspector.Wheel | app/components/ImageInspector.tsx:54-58 | a positive delta zooms out by 0.1, anything else zooms in by 0.1, within [0.25, 5] |
| ImageInspector.DragAtFitDoesNotPan | app/components/ImageInspector.tsx:34-48 | at zoom 1 or less a press and a move never move the image |
| ImageComparison.DragPercentage | app/components/ImageComparison.tsx:95 | the divider lies in [0, 100] and, inside the container, is the pointer's percentage of the width |
| ImageComparison.Viewer.constructor | app/components/ImageComparison.tsx:21-22 | zoom 1, divider at 50 |
| ImageComparison.Viewer.ZoomIn | app/components/ImageComparison.tsx:24 | zoom rises by 0.25, capped at 3 |
| ImageComparison.Viewer.ZoomOut | app/components/ImageComparison.tsx:25 | zoom falls by 0.25, floored at 0.5 |
| ImageComparison.Viewer.Drag | app/components/ImageComparison.tsx:95-96 | a drag sets the divider to the clamped percentage |
| ImageComparison.Viewer.SetFromRange | app/components/ImageComparison.tsx:117 | the range input sets the divider |
| ImageComparison.PanesFillWidth | app/components/ImageComparison.tsx:69 | the two panes fill the width and neither is negative |
| ProgressBar.Clamp | app/components/ProgressBar.tsx:14 | the width lies in [0, 100] |
| ProgressBar.ClampProperties | app/components/ProgressBar.tsx:14 | in-range values are kept; clamping is idempotent and monotone; out-of-range values go to the nearer end |
| LoadingProgress.StepViews | app/components/LoadingProgress.tsx:43-46 | one view per step, in order, active exactly from its threshold, current exactly for the current step's text |
| LoadingProgress.ThresholdMonotone | app/components/LoadingProgress.tsx:44 | step thresholds rise with the index |
| LoadingProgress.ActiveSteps | app/components/LoadingProgress.tsx:44-45 | the active steps form a prefix, and the last step is active exactly from 100 |

## Left out

- Arithmetic is exact (reals and unbounded integers), not IEEE-754 doubles. Where rounding matters this is noted below.
- Common.Lower: only ASCII `A`-`Z` are lowered. JavaScript's `toLowerCase` is the full Unicode case map: it lowers `É` to `é`, and `İ` to `i` followed by a combining dot. Every member below that lower-cases inherits this.
- HistoryPanel.SearchMeaning: "ignoring case" means ignoring ASCII case. The term "CAFÉ" matches the notes "Café" in the source, but not in the model.
- HistoryPanel.SearchIgnoresCase: the search is invariant under ASCII lower-casing only, not under every `toLowerCase` of the term.
- Analysis.HighBranchIgnoresCase: only ASCII case is ignored. The name "AİRBRUSH.png" lowers to "ai̇rbrush.png" in JavaScript, which contains "ai", so the source takes the high branch; the model keeps `İ` and takes the low one. Analysis.AnalyzeImage and AnalyzeRoute.MockOnServer make the same choice.
- PerceptualHash.PerceptualHashHex: the grays, their sum and their mean are exact, so the bits are the exact-arithmetic bits. The source rounds each gray and each partial sum to a double. On an 8 by 8 canvas whose every pixel is (1, 0, 0, 255), the source's mean is 0.3333333333333332, below the gray 0.3333333333333333, so it hashes to "ffffffffffffffff"; the model's mean equals every gray and gives "0000000000000000".
- PerceptualHash.GrayPass: the running sum is exact, not the rounded double sum of the source.
- PerceptualHash.HashHasZeroBit: holds for the exact mean only. The canvas above has no 0 bit in the source.
- ImageUtils.DetectArtifacts: confidence is an integer `min(100, 10 · tenths)`. Floating-point sums such as 0.7999999999999999 · 100 are not reproduced.
- ImageUtils.DominantColors: the canvas size after the non-integral resize ratio is an input. The browser's rounding of the canvas size and its scaling are not modelled.
- ImageUtils.DominantColors: a JavaScript `Map` keyed by the text `"r,g,b"` is modelled as a map keyed by colour triples. The two are equivalent, because the quantised channels print uniquely.
- Image decoding, canvas drawing and resampling are not modelled. Each scan takes the canvas bytes as input, or the load outcome as a datatype.
- The MD5 and SHA-256 hashes (lib/hash.ts:12-49) are not part of this model: they call the platform's digest functions.
- lib/metadata.ts, lib/pdf.ts, lib/export.ts and `exportHistoryAsJSON` (lib/history.ts:123-126) are not part of this model. They are formatting and I/O around the core.
- app/page.tsx (page orchestration), SettingsPanel, HashView, MetadataView, ImageStatistics and ThemeProvider are not part of this model. The other API routes (hash, metadata, report) are not part of it either.
- JSON serialisation is not modelled. Storage holds the parsed list directly, and a slot that does not parse is a separate case.
- History.HistoryStore.Save: ids and timestamps come from `Date.now` and `Math.random` passed in. Ids are not proved unique.
- The network request to Sightengine, the `setTimeout` delay of the mock, and exceptions from reading the form data are not modelled.
- AnalyzeRoute.Post: the `details` field of the 500 body is not modelled, nor is the 500 path that other exceptions take.
- BatchRoute.Post: the 500 reply for an exception outside the per-file loop is not modelled. `Promise.all` runs the per-file analyses concurrently; the model runs them in file order, which gives the same result list.
- Sightengine.Transform: a `genai` object without a numeric `score` gives `NaN` in the source. The model always has a score.
- Analysis.MockTechnicalDetails: `imageDimensions` is flattened into `width` and `height` fields.
- ChartView.RadarData: the `|| 0` defaults of the chart are not modelled, because the category fields are always present integers in the model.
- ColorHistogram.ChannelHistograms: the bar title's `Math.round` and all `toFixed` and `toString` formatting of displayed numbers are not modelled.
- QualityMetrics.LevelBands: the Fair and Poor levels exist, but an image cannot reach them. The two density penalties exclude each other, so every score is at least 65.
- BatchProcessor.Panel.Select: previews are modelled as if every `FileReader` finished, in file order. The intermediate states while the readers run are not modelled.
- BatchProcessor.Panel.Process: the fetch to `/api/batch` is an outcome parameter.
- ImageComparison.Viewer.Drag: a container of zero width, where the source divides by 0, is excluded.
- ImageInspector.Inspector.ZoomIn: zoom steps of 0.25 and 0.1 are exact rationals. The source's floating-point drift after repeated wheel steps is not modelled.
- React rendering, CSS classes and event wiring are not modelled beyond the values they display.
