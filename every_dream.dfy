/**
 * The per-epoch scheduling and sample-assembly logic of EveryDreamBatch
 * (data/every_dream.py): an epoch state made of a seed counter and the
 * current item ordering, the rating-driven keep fraction asked of the
 * bucketing collaborator, the per-sample caption, dropout and normalisation
 * choices, and the per-epoch batch schedule listing.
 *
 * The collaborators the class talks to (bucketing, hydration, caption
 * object, tokenizer) are given only by their interfaces: arrow-typed values
 * that the model calls and never looks into.
 */
module EveryDream {

  datatype Option<+T> = None | Some(value: T)

  // ---------------------------------------------------------------------
  // Interfaces of the collaborators
  // ---------------------------------------------------------------------

  /** A handle produced by the bucketing collaborator. */
  datatype BucketedItem = BucketedItem(targetWh: (int, int), runtSize: int, pathname: string)

  /** The caption object: a stable view and a tag-shuffled view keyed by a seed. */
  datatype CaptionObject = CaptionObject(stable: string, shuffled: int -> string)

  /** A source image as raw 8-bit channel values, before ToTensor/Normalize. */
  datatype Image = Image(pixels: seq<int>)

  /** What hydrating an item yields. */
  datatype Hydrated = Hydrated(image: Image, caption: CaptionObject, runtSize: int)

  /** The flags passed to the hydration collaborator. */
  datatype HydrateRequest = HydrateRequest(crop: bool, save: bool, cropJitter: int)

  /**
   * The tokenizer: its maximum sequence length and its encoding function,
   * which takes the text and the max_length it truncates and pads to.
   */
  datatype Tokenizer = Tokenizer(modelMaxLength: nat, encode: (string, nat) -> seq<int>)

  /** The (mean, std) pair given to the affine intensity normalisation. */
  datatype Normalization = Normalization(mean: real, std: real)

  /** The record returned by one index access. */
  datatype Sample = Sample(image: Image, normalization: Normalization, caption: string,
                           tokens: seq<int>, runtSize: int)

  /** One line of the per-epoch batch schedule listing. */
  datatype ScheduleEntry = ScheduleEntry(step: int, wh: (int, int), runtSize: int, pathname: string)

  // ---------------------------------------------------------------------
  // Epoch scheduler: the keep fraction
  // ---------------------------------------------------------------------

  /**
   * The fraction handed to the bucketing collaborator by `shuffle`. In rated
   * mode it is the linear ramp (maxEpochs - epochN * target) / maxEpochs,
   * never clamped; otherwise it is 1.0. Rated mode divides by maxEpochs,
   * which fails when maxEpochs is 0.
   */
  function DropoutFraction(ratedDataset: bool, epochN: int, maxEpochs: int, target: real): (f: real)
    requires ratedDataset ==> maxEpochs != 0
    ensures !ratedDataset ==> f == 1.0
    ensures ratedDataset ==> f * maxEpochs as real == maxEpochs as real - epochN as real * target
    ensures epochN == 0 ==> f == 1.0
  {
    if ratedDataset then
      var kept := maxEpochs as real - epochN as real * target;
      assert epochN == 0 ==> kept == maxEpochs as real;
      kept / maxEpochs as real
    else 1.0
  }

  /** A product of two non-negative reals is non-negative. */
  lemma MulNonNegative(a: real, b: real)
    requires a >= 0.0 && b >= 0.0
    ensures a * b >= 0.0
  {
  }

  /** Multiplying by a positive real preserves order in both directions. */
  lemma CancelPositive(a: real, b: real, m: real)
    requires m > 0.0
    ensures a * m <= b * m <==> a <= b
  {
  }

  /** In rated mode the fraction never grows from one epoch to a later one. */
  lemma DropoutFractionNonIncreasing(e1: int, e2: int, maxEpochs: int, target: real)
    requires maxEpochs > 0 && target >= 0.0 && e1 <= e2
    ensures DropoutFraction(true, e2, maxEpochs, target) <= DropoutFraction(true, e1, maxEpochs, target)
  {
    var m := maxEpochs as real;
    var f1 := DropoutFraction(true, e1, maxEpochs, target);
    var f2 := DropoutFraction(true, e2, maxEpochs, target);
    MulNonNegative(e2 as real - e1 as real, target);
    assert f1 * m - f2 * m == (e2 as real - e1 as real) * target;
    CancelPositive(f2, f1, m);
  }

  /**
   * Over epochs 0..maxEpochs with a target in [0, 1], the fraction stays in
   * [1 - target, 1] and, computed over exact reals, reaches 1 - target at
   * epoch maxEpochs.
   */
  lemma DropoutFractionRange(epochN: int, maxEpochs: int, target: real)
    requires maxEpochs > 0 && 0 <= epochN <= maxEpochs && 0.0 <= target <= 1.0
    ensures 1.0 - target <= DropoutFraction(true, epochN, maxEpochs, target) <= 1.0
    ensures epochN == maxEpochs ==> DropoutFraction(true, epochN, maxEpochs, target) == 1.0 - target
  {
    RampBounds(DropoutFraction(true, epochN, maxEpochs, target), maxEpochs as real, epochN as real, target);
  }

  /** Any f with f * m == m - e * t, for 0 <= e <= m and t in [0, 1], lies in [1 - t, 1]. */
  lemma RampBounds(f: real, m: real, e: real, t: real)
    requires m > 0.0 && 0.0 <= e <= m && 0.0 <= t <= 1.0
    requires f * m == m - e * t
    ensures 1.0 - t <= f <= 1.0
    ensures e == m ==> f == 1.0 - t
  {
    MulNonNegative(m - e, t);
    assert (m - e) * t == m * t - e * t;
    assert (1.0 - t) * m == m - m * t;
    CancelPositive(1.0 - t, f, m);
    MulNonNegative(e, t);
    assert f * m <= 1.0 * m;
    CancelPositive(f, 1.0, m);
    if e == m {
      CancelPositive(f, 1.0 - t, m);
    }
  }

  /** The fraction is not clamped to [0, 1]: outside the ramp it leaves that range. */
  lemma DropoutFractionNotClamped()
    ensures DropoutFraction(true, 4, 1, 0.5) == -1.0
    ensures DropoutFraction(true, -2, 1, 0.5) == 2.0
  {
  }

  // ---------------------------------------------------------------------
  // Caption renderer and per-sample choices
  // ---------------------------------------------------------------------

  /** A draw strictly greater than the conditional dropout keeps the caption. */
  predicate KeepsCaption(draw: real, conditionalDropout: real)
  {
    draw > conditionalDropout
  }

  /** The string handed to the tokenizer: the caption, or a single blank. */
  function TokenizerInput(caption: string, draw: real, conditionalDropout: real): (text: string)
    ensures KeepsCaption(draw, conditionalDropout) ==> text == caption
    ensures !KeepsCaption(draw, conditionalDropout) ==> text == " "
  {
    if KeepsCaption(draw, conditionalDropout) then caption else " "
  }

  /**
   * For draws in [0, 1) as random.random() gives them: a conditional dropout
   * of 1.0 or more blanks every caption; one of 0.0 keeps every caption except
   * for a draw of exactly 0.0; a negative one keeps every caption.
   */
  lemma ConditionalDropoutBounds(caption: string, draw: real, conditionalDropout: real)
    requires 0.0 <= draw < 1.0
    ensures conditionalDropout >= 1.0 ==> TokenizerInput(caption, draw, conditionalDropout) == " "
    ensures conditionalDropout == 0.0 ==>
              (TokenizerInput(caption, draw, conditionalDropout) == caption <== draw != 0.0)
    ensures conditionalDropout == 0.0 && draw == 0.0 ==>
              TokenizerInput(caption, draw, conditionalDropout) == " "
    ensures conditionalDropout < 0.0 ==> TokenizerInput(caption, draw, conditionalDropout) == caption
  {
  }

  /** (0.0, 1.0) when contrast is retained, (0.5, 0.5) otherwise. */
  function NormalizationFor(retainContrast: bool): (n: Normalization)
    ensures n.std > 0.0
    ensures retainContrast <==> n.mean == 0.0
  {
    if retainContrast then Normalization(0.0, 1.0) else Normalization(0.5, 0.5)
  }

  /** ToTensor maps an 8-bit channel value to [0, 1]. */
  function ToTensorValue(p: int): (x: real)
  {
    p as real / 255.0
  }

  /** Normalize maps a tensor value x to (x - mean) / std. */
  function NormalizeValue(n: Normalization, x: real): (y: real)
    requires n.std != 0.0
  {
    (x - n.mean) / n.std
  }

  /**
   * For an 8-bit channel value, retaining contrast leaves the ToTensor value
   * unchanged, and otherwise the normalised value lies in [-1, 1].
   */
  lemma NormalizedPixelRange(retainContrast: bool, p: int)
    requires 0 <= p <= 255
    ensures 0.0 <= ToTensorValue(p) <= 1.0
    ensures retainContrast ==> NormalizeValue(NormalizationFor(retainContrast), ToTensorValue(p)) == ToTensorValue(p)
    ensures !retainContrast ==> -1.0 <= NormalizeValue(NormalizationFor(retainContrast), ToTensorValue(p)) <= 1.0
  {
    var x := ToTensorValue(p);
    assert x * 255.0 == p as real;
    if !retainContrast {
      assert NormalizeValue(NormalizationFor(false), x) == 2.0 * x - 1.0;
    }
  }

  /** Hydration never crops, saves crops above debug level 2, and passes the jitter. */
  function HydrationRequest(debugLevel: int, cropJitter: int): (req: HydrateRequest)
    ensures !req.crop
    ensures req.save <==> debugLevel > 2
    ensures req.cropJitter == cropJitter
  {
    HydrateRequest(false, debugLevel > 2, cropJitter)
  }

  /**
   * Python list indexing over n items: 0..n-1 from the front, -n..-1 from
   * the back, anything else an IndexError (None). The position found is the
   * only one in 0..n-1 that is i or n + i.
   */
  function ResolveIndex(n: nat, i: int): (k: Option<nat>)
    ensures k.Some? <==> -(n as int) <= i < n
    ensures k.Some? ==> k.value < n && (k.value == i || k.value == n + i)
  {
    if 0 <= i < n then Some(i) else if -(n as int) <= i < 0 then Some(n + i) else None
  }

  // ---------------------------------------------------------------------
  // Batch schedule listing
  // ---------------------------------------------------------------------

  /** The listing line for the item at position i: its step is i / batchSize, rounded down. */
  function ScheduleEntryFor(item: BucketedItem, i: nat, batchSize: int): (e: ScheduleEntry)
    requires batchSize > 0
    ensures 0 <= e.step && e.step * batchSize <= i < e.step * batchSize + batchSize
    ensures e.wh == item.targetWh && e.runtSize == item.runtSize && e.pathname == item.pathname
  {
    ScheduleEntry(i / batchSize, item.targetWh, item.runtSize, item.pathname)
  }

  /** The whole listing for an ordering: one line per item, in ordering order. */
  function BatchSchedule(items: seq<BucketedItem>, batchSize: int): (listing: seq<ScheduleEntry>)
    requires batchSize > 0
    ensures |listing| == |items|
  {
    seq(|items|, i requires 0 <= i < |items| => ScheduleEntryFor(items[i], i, batchSize))
  }

  /** Builds the listing line by line, as the schedule writer's loop does. */
  method BatchScheduleListing(items: seq<BucketedItem>, batchSize: int) returns (entries: seq<ScheduleEntry>)
    requires batchSize > 0
    ensures entries == BatchSchedule(items, batchSize)
  {
    entries := [];
    for i := 0 to |items|
      invariant |entries| == i
      invariant forall k :: 0 <= k < i ==> entries[k] == ScheduleEntryFor(items[k], k, batchSize)
    {
      entries := entries + [ScheduleEntryFor(items[i], i, batchSize)];
    }
  }

  /** Line i of the listing describes item i, and its step is the batch i falls in. */
  lemma BatchScheduleEntry(items: seq<BucketedItem>, batchSize: int, i: int, s: int)
    requires batchSize > 0 && 0 <= i < |items|
    ensures |BatchSchedule(items, batchSize)| == |items|
    ensures BatchSchedule(items, batchSize)[i].wh == items[i].targetWh
    ensures BatchSchedule(items, batchSize)[i].runtSize == items[i].runtSize
    ensures BatchSchedule(items, batchSize)[i].pathname == items[i].pathname
    ensures BatchSchedule(items, batchSize)[i].step == s <==> s * batchSize <= i < s * batchSize + batchSize
  {
    var q := BatchSchedule(items, batchSize)[i].step;
    if s * batchSize <= i < s * batchSize + batchSize {
      StepUnique(i, batchSize, q, s);
    }
  }

  /** A later batch starts no earlier than the end of an earlier one. */
  lemma BatchStartsOrdered(q: int, s: int, batchSize: int)
    requires q < s && batchSize > 0
    ensures q * batchSize + batchSize <= s * batchSize
  {
    var d := s - q - 1;
    assert d * batchSize >= 0;
    assert s * batchSize == q * batchSize + batchSize + d * batchSize;
  }

  /** Two batch indices whose ranges both hold i are the same. */
  lemma StepUnique(i: int, batchSize: int, q: int, s: int)
    requires batchSize > 0
    requires q * batchSize <= i < q * batchSize + batchSize
    requires s * batchSize <= i < s * batchSize + batchSize
    ensures q == s
  {
    if q < s { BatchStartsOrdered(q, s, batchSize); }
    if s < q { BatchStartsOrdered(s, q, batchSize); }
  }

  /** Steps never decrease along the listing and never skip a batch. */
  lemma BatchScheduleStepsOrdered(items: seq<BucketedItem>, batchSize: int, i: int, j: int)
    requires batchSize > 0 && 0 <= i <= j < |items|
    ensures BatchSchedule(items, batchSize)[i].step <= BatchSchedule(items, batchSize)[j].step
    ensures j == i + 1 ==> BatchSchedule(items, batchSize)[j].step <= BatchSchedule(items, batchSize)[i].step + 1
  {
    var qi, qj := i / batchSize, j / batchSize;
    assert qi * batchSize <= i < qi * batchSize + batchSize;
    assert qj * batchSize <= j < qj * batchSize + batchSize;
    if qj < qi {
      BatchStartsOrdered(qj, qi, batchSize);
    }
    if j == i + 1 && qi + 1 < qj {
      BatchStartsOrdered(qi + 1, qj, batchSize);
    }
  }

  // ---------------------------------------------------------------------
  // The batch provider
  // ---------------------------------------------------------------------

  class EveryDreamBatch {
    const batchSize: int
    const debugLevel: int
    const conditionalDropout: real
    const cropJitter: int
    const tokenizer: Tokenizer
    const maxTokenLength: nat
    const retainContrast: bool
    const writeSchedule: bool
    const shuffleTags: bool
    const ratedDataset: bool
    const ratedDatasetDropoutTarget: real

    /** The seed counter, bumped once per epoch. */
    var seed: int
    /** The current epoch's ordering, replaced wholesale by Shuffle. */
    var imageTrainItems: seq<BucketedItem>
    /** The schedule files of the log folder, by epoch number (rewritten, not appended). */
    var scheduleFiles: map<int, seq<ScheduleEntry>>

    /** The seed given at construction and the number of Shuffle calls since. */
    ghost const initialSeed: int
    ghost var shuffles: nat

    ghost predicate Valid()
      reads this
    {
      batchSize > 0 &&
      maxTokenLength == tokenizer.modelMaxLength &&
      seed == initialSeed + shuffles
    }

    /**
     * The first epoch asks the bucketing collaborator for the ordering with
     * fraction 1.0 (every item takes part) and, when schedules are written,
     * writes the listing for epoch 0.
     */
    constructor (buckets: real -> seq<BucketedItem>, batchSize: int, debugLevel: int := 0,
                 conditionalDropout: real := 0.02, cropJitter: int := 20, seed: int := 555,
                 tokenizer: Tokenizer, retainContrast: bool := false, writeSchedule: bool := false,
                 shuffleTags: bool := false, ratedDataset: bool := false,
                 ratedDatasetDropoutTarget: real := 0.5)
      requires batchSize > 0
      ensures Valid()
      ensures this.batchSize == batchSize && this.debugLevel == debugLevel
      ensures this.conditionalDropout == conditionalDropout && this.cropJitter == cropJitter
      ensures this.tokenizer == tokenizer && maxTokenLength == tokenizer.modelMaxLength
      ensures this.retainContrast == retainContrast && this.writeSchedule == writeSchedule
      ensures this.shuffleTags == shuffleTags && this.ratedDataset == ratedDataset
      ensures this.ratedDatasetDropoutTarget == ratedDatasetDropoutTarget
      ensures this.seed == seed && initialSeed == seed && shuffles == 0
      ensures imageTrainItems == buckets(1.0)
      ensures Length() == |buckets(1.0)|
      ensures scheduleFiles == if writeSchedule then map[0 := BatchSchedule(buckets(1.0), batchSize)]
                               else map[]
    {
      this.batchSize := batchSize;
      this.debugLevel := debugLevel;
      this.conditionalDropout := conditionalDropout;
      this.cropJitter := cropJitter;
      this.tokenizer := tokenizer;
      this.maxTokenLength := tokenizer.modelMaxLength;
      this.retainContrast := retainContrast;
      this.writeSchedule := writeSchedule;
      this.shuffleTags := shuffleTags;
      this.seed := seed;
      this.initialSeed := seed;
      this.shuffles := 0;
      this.ratedDataset := ratedDataset;
      this.ratedDatasetDropoutTarget := ratedDatasetDropoutTarget;
      this.imageTrainItems := buckets(1.0);
      this.scheduleFiles := map[];
      new;
      if writeSchedule {
        WriteBatchSchedule(0);
      }
    }

    /** Writes the listing of the current ordering to the file for epoch epochN. */
    method WriteBatchSchedule(epochN: int)
      requires Valid()
      modifies this`scheduleFiles
      ensures Valid()
      ensures scheduleFiles == old(scheduleFiles)[epochN := BatchSchedule(imageTrainItems, batchSize)]
    {
      var entries := BatchScheduleListing(imageTrainItems, batchSize);
      scheduleFiles := scheduleFiles[epochN := entries];
    }

    /**
     * Starts a new epoch: bumps the seed by one, computes the keep fraction,
     * replaces the ordering with the collaborator's answer for it, and, when
     * schedules are written, writes the listing for epoch epochN + 1.
     */
    method Shuffle(epochN: int, maxEpochs: int, buckets: real -> seq<BucketedItem>)
      requires Valid()
      requires ratedDataset ==> maxEpochs != 0
      modifies this
      ensures Valid()
      ensures seed == old(seed) + 1 && shuffles == old(shuffles) + 1
      ensures imageTrainItems == buckets(DropoutFraction(ratedDataset, epochN, maxEpochs, ratedDatasetDropoutTarget))
      ensures Length() == |buckets(DropoutFraction(ratedDataset, epochN, maxEpochs, ratedDatasetDropoutTarget))|
      ensures scheduleFiles == if writeSchedule
                               then old(scheduleFiles)[epochN + 1 := BatchSchedule(imageTrainItems, batchSize)]
                               else old(scheduleFiles)
    {
      seed := seed + 1;
      shuffles := shuffles + 1;
      var dropoutFraction := DropoutFraction(ratedDataset, epochN, maxEpochs, ratedDatasetDropoutTarget);
      imageTrainItems := buckets(dropoutFraction);
      if writeSchedule {
        WriteBatchSchedule(epochN + 1);
      }
    }

    /** The number of items in the current epoch's ordering. */
    function Length(): (n: nat)
      reads this
      ensures n == |imageTrainItems|
    {
      |imageTrainItems|
    }

    /** Hydrates one item without cropping, saving crops only above debug level 2. */
    method GetImageForTrainer(item: BucketedItem, hydrate: (BucketedItem, HydrateRequest) -> Hydrated,
                              debugLevel: int := 0)
      returns (h: Hydrated)
      ensures h == hydrate(item, HydrationRequest(debugLevel, cropJitter))
    {
      var save := debugLevel > 2;
      h := hydrate(item, HydrateRequest(false, save, cropJitter));
    }

    /**
     * One index access. The item is looked up as a Python list would (None
     * stands for the IndexError), hydrated, and assembled into a sample whose
     * caption is the view chosen by shuffleTags with the current seed, whose
     * tokens encode that caption when the draw beats the conditional dropout
     * and a single blank otherwise, and whose runt size is the hydrated one.
     */
    method GetItem(i: int, draw: real, hydrate: (BucketedItem, HydrateRequest) -> Hydrated)
      returns (r: Option<Sample>)
      requires Valid()
      ensures r.None? <==> !(-(Length() as int) <= i < Length())
      ensures r.Some? ==>
        var h := hydrate(imageTrainItems[ResolveIndex(Length(), i).value],
                         HydrationRequest(debugLevel, cropJitter));
        && r.value.image == h.image
        && r.value.runtSize == h.runtSize
        && r.value.normalization == NormalizationFor(retainContrast)
        && (shuffleTags ==> r.value.caption == h.caption.shuffled(initialSeed + shuffles))
        && (!shuffleTags ==> r.value.caption == h.caption.stable)
        && (KeepsCaption(draw, conditionalDropout) ==>
              r.value.tokens == tokenizer.encode(r.value.caption, maxTokenLength))
        && (!KeepsCaption(draw, conditionalDropout) ==>
              r.value.tokens == tokenizer.encode(" ", maxTokenLength))
    {
      var k := ResolveIndex(|imageTrainItems|, i);
      if k.None? {
        return None;
      }
      var trainItem := GetImageForTrainer(imageTrainItems[k.value], hydrate, debugLevel);
      var normalization := NormalizationFor(retainContrast);
      var caption: string;
      if shuffleTags {
        caption := trainItem.caption.shuffled(seed);
      } else {
        caption := trainItem.caption.stable;
      }
      var tokens := tokenizer.encode(TokenizerInput(caption, draw, conditionalDropout),
                                     tokenizer.modelMaxLength);
      r := Some(Sample(trainItem.image, normalization, caption, tokens, trainItem.runtSize));
    }
  }

  /**
   * A client: two epochs over a rated dataset with four items per batch, no
   * conditional dropout and contrast not retained, then the first sample.
   */
  method TwoEpochs(buckets: real -> seq<BucketedItem>, later: real -> seq<BucketedItem>,
                   tokenizer: Tokenizer, hydrate: (BucketedItem, HydrateRequest) -> Hydrated)
  {
    var batch := new EveryDreamBatch(buckets, 4, conditionalDropout := 0.0, tokenizer := tokenizer,
                                     writeSchedule := true, ratedDataset := true);
    assert batch.debugLevel == 0 && batch.cropJitter == 20 && batch.seed == 555;
    assert !batch.retainContrast && !batch.shuffleTags && batch.ratedDatasetDropoutTarget == 0.5;
    assert batch.Length() == |buckets(1.0)|;
    assert 0 in batch.scheduleFiles;
    batch.Shuffle(0, 10, later);
    assert batch.imageTrainItems == later(1.0);
    batch.Shuffle(1, 10, buckets);
    assert batch.seed == 557;
    assert batch.imageTrainItems == buckets(0.95);
    assert batch.scheduleFiles.Keys == {0, 1, 2};
    var r := batch.GetItem(0, 0.25, hydrate);
    if batch.Length() > 0 {
      var h := hydrate(batch.imageTrainItems[0], HydrationRequest(0, 20));
      assert r == Some(Sample(h.image, Normalization(0.5, 0.5), h.caption.stable,
                              tokenizer.encode(h.caption.stable, tokenizer.modelMaxLength),
                              h.runtSize));
    } else {
      assert r == None;
    }
  }
}
