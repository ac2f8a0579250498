# EveryDreamBatch scheduling and sample assembly, in Dafny

This project models `EveryDreamBatch` from `data/every_dream.py` of EveryDream2trainer. It
keeps the dataset's epoch state: a `seed` counter and the current epoch's ordering of bucketed
items. `Shuffle`, called once per epoch, bumps the seed by one. It then asks the bucketing
collaborator for a new ordering, using a keep fraction that follows a linear ramp in rated mode
and is 1.0 otherwise. `GetItem` is random access into that ordering. For each access it chooses:

- the caption view (tag-shuffled with the current seed, or stable);
- whether the tokenizer sees the caption or a single blank (conditional dropout);
- the (mean, std) normalisation pair;
- the flags passed to hydration.

When schedule writing is on, every epoch's ordering is also listed as one line per item, with
the batch step `i / batch_size` rounded down.

Everything lives in `every_dream.dfy`, module `EveryDream`:

- The collaborators appear only through their interfaces, as arrow-typed values:
  - bucketing is `real -> seq<BucketedItem>`, and `Shuffle` and the constructor receive it
    per call, because the real collaborator is stateful and may answer differently each time;
  - hydration is `(BucketedItem, HydrateRequest) -> Hydrated`;
  - the caption object is a stable string plus a shuffled view `int -> string`;
  - the tokenizer is a maximum length plus an encoding function.
- `random.random()` is the `draw` parameter of `GetItem`.
- The schedule files in the log folder are a map from epoch number to listing. A rewrite
  replaces that epoch's entry, as opening the file with `"w"` does.
- Two ghost fields, the initial seed and the number of `Shuffle` calls, let the class
  invariant state that the seed is always the initial seed plus the number of epochs started.
- The constructor's parameters carry the source's default values (lines 36-46), and
  `GetImageForTrainer`'s `debugLevel` defaults to 0 as at line 141.
- `TwoEpochs` is a client method. It builds a batch, starts two epochs and takes one sample,
  using the contracts alone.

Three behaviours of `data/every_dream.py` a reader may not expect:

- At `conditional_dropout = 0.0` a draw of exactly `0.0` still blanks the caption. The test at
  line 122 is `random.random() > conditional_dropout`, and `random.random()` can return 0.0.
- At `epoch_n = max_epochs` the rated fraction of line 84 equals `1 - target` over exact
  reals; in doubles it can differ in the last bit (see "Left out").
- `Sample.caption` always holds the real caption chosen at lines 115-118. Dropout changes only
  what the tokenizer is given: the caption at line 123, the blank at line 129.

## Model

| member | source | states |
|---|---|---|
| `EveryDream.DropoutFraction` | data/every_dream.py:83-86 | Outside rated mode the fraction is 1.0. In rated mode, fraction × max_epochs = max_epochs − epoch_n × target, and the call needs max_epochs ≠ 0. At epoch 0 it is exactly 1.0. |
| `EveryDream.DropoutFractionNonIncreasing` | data/every_dream.py:84 | In rated mode, with max_epochs > 0 and target ≥ 0, a later epoch never gets a larger fraction. |
| `EveryDream.DropoutFractionRange` | data/every_dream.py:84 | For epochs 0..max_epochs and target in [0, 1], the fraction lies in [1 − target, 1]. At epoch max_epochs it equals 1 − target. |
| `EveryDream.DropoutFractionNotClamped` | data/every_dream.py:84 | Nothing clamps the fraction: epoch 4 of 1 with target 0.5 gives −1.0, and epoch −2 gives 2.0. |
| `EveryDream.KeepsCaption` | data/every_dream.py:122 | The caption is kept exactly when the draw is strictly greater than conditional_dropout. |
| `EveryDream.TokenizerInput` | data/every_dream.py:122-133 | A draw strictly greater than conditional_dropout sends the caption to the tokenizer. Any other draw sends the single string " ". |
| `EveryDream.ConditionalDropoutBounds` | data/every_dream.py:122 | For draws in [0, 1): dropout ≥ 1.0 blanks every caption, and dropout < 0 keeps every one. Dropout 0.0 keeps every caption except on a draw of exactly 0.0. |
| `EveryDream.NormalizationFor` | data/every_dream.py:101-106 | The pair is (0.0, 1.0) exactly when contrast is retained, and (0.5, 0.5) otherwise. Its std is always positive. |
| `EveryDream.NormalizedPixelRange` | data/every_dream.py:108-113 | An 8-bit channel value becomes a value in [0, 1] under ToTensor. Retaining contrast leaves that value unchanged; otherwise Normalize maps it into [−1, 1]. |
| `EveryDream.HydrationRequest` | data/every_dream.py:143-145 | Hydration is asked never to crop. It saves crops exactly when debug_level > 2, and it passes the configured crop_jitter. |
| `EveryDream.ResolveIndex` | data/every_dream.py:99 | Python list indexing: an index resolves exactly when −n ≤ i < n, and then to a position in 0..n−1 that is i itself or n + i. Any other index is an IndexError. |
| `EveryDream.ScheduleEntryFor` | data/every_dream.py:76 | The line for position i has a non-negative step s with s × batch_size ≤ i < (s + 1) × batch_size. It carries the item's target wh, runt size and path. |
| `EveryDream.BatchSchedule` | data/every_dream.py:74-76 | The listing of an ordering has exactly one line per item. |
| `EveryDream.BatchScheduleListing` | data/every_dream.py:74-76 | The writer's loop produces exactly the listing of the ordering: one line per item, in order. |
| `EveryDream.BatchScheduleEntry` | data/every_dream.py:76 | The listing has one line per item. Line i carries item i's target wh, runt size and path. Its step is s exactly when s × batch_size ≤ i < (s + 1) × batch_size. |
| `EveryDream.BatchScheduleStepsOrdered` | data/every_dream.py:76 | Steps never decrease along the listing. Consecutive lines differ in step by at most one. |
| `EveryDream.EveryDreamBatch.constructor` | data/every_dream.py:48-70 | Construction keeps every configuration value and the given seed. It asks for the ordering with fraction exactly 1.0, so Length() is the size of that answer. The only schedule file written is epoch 0's, and only when schedules are written. |
| `EveryDream.EveryDreamBatch.WriteBatchSchedule` | data/every_dream.py:72-78 | The file for the given epoch is replaced by the listing of the current ordering. No other file changes. |
| `EveryDream.EveryDreamBatch.Shuffle` | data/every_dream.py:80-91 | The seed and the epoch count each grow by exactly one, so the seed stays initial + number of shuffles. The ordering becomes the collaborator's answer for DropoutFraction, and Length() its size. When schedules are written, the file for epoch_n + 1 is written; no other file or field changes. |
| `EveryDream.EveryDreamBatch.Length` | data/every_dream.py:93-94 | The length is the size of the current ordering. |
| `EveryDream.EveryDreamBatch.GetImageForTrainer` | data/every_dream.py:141-150 | The result is the hydration collaborator's answer for the item, with the HydrationRequest flags. |
| `EveryDream.EveryDreamBatch.GetItem` | data/every_dream.py:96-139 | Indices outside −Length()..Length()−1 raise IndexError. Otherwise the sample holds the hydrated image and runt size, and the normalisation pair for retain_contrast. Its caption is the view keyed by the current seed (initial + shuffles) with shuffle_tags, and the stable view without. Its tokens encode the caption when draw > conditional_dropout, and " " otherwise, at the tokenizer's maximum length. |

## Left out

- Tensor arithmetic: the model does not apply ToTensor and Normalize to the image. The sample
  carries the hydrated image and the chosen (mean, std) pair. `NormalizedPixelRange` states the
  per-value effect over exact reals. Floating-point rounding and channel layout are not modelled.
- Tokenizer internals: truncation, padding and the tensor wrapping are not modelled. The
  tokenizer is an abstract function of the text and the maximum length. The model does not
  prove that tokens have the maximum length, because that depends on the tokenizer.
- `random.random()` is an input draw, not a random number generator.
- Tag shuffling inside the caption object is not modelled: the shuffled view is an abstract
  function of the seed. That makes it deterministic per seed by construction.
- The bucketing algorithm (`get_shuffled_image_buckets`) and hydration (`hydrate`: image
  loading, cropping, saving) are abstract functions. Hydration failures propagate uncaught in
  the source; the model has no failure case for them.
- Schedule I/O is not modelled: opening the file, the log-folder path, formatting a line
  (`:05` padding, the `wh` rendering), the per-line exception catch and the `logging` calls.
  A listing is the sequence of its line records.
- `int(i / batch_size)` goes through a float in the source. The model uses exact integer
  division, which gives the same result for 0 ≤ i < 2^53; the source can differ above that.
- `DropoutFraction`, and so `DropoutFractionRange` and `DropoutFractionNonIncreasing`, compute
  over `real`, not IEEE double. In the source, max_epochs = 3 with target 0.3 ends at
  0.7000000000000001, not 0.7; the model does not capture that rounding.
- `Shuffle` and `DropoutFraction` require max_epochs ≠ 0 in rated mode. The source raises
  ZeroDivisionError at line 84 there, and that failure is not modelled.
- The constructor requires batch_size > 0. The source divides by it at line 68, so zero fails
  there; negative batch sizes are outside the model.
- The tokenizer must be present. The default `tokenizer=None` fails at line 56 in the source,
  and that failure is not modelled.
- The unused fields `unloaded_to_idx` and `log_folder`, and the data loader reference itself,
  are not modelled. The data loader is passed per call.
- Thread safety against a parallel batch-fetch layer is not modelled.
