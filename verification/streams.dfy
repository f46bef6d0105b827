/** The stream stages of src/utils/streams.js: validating each streamed JSON
    value as a generation input, and grouping items into batches. The JSON
    tokenizer in front of them is not modelled: its output is the sequence of
    parsed values. */
module Streams {

  import opened Wrappers
  import opened JsValues
  import opened Seqs
  import Parsers

  /** What a generator stage produced: the items it yielded, and the error it
      raised after them, if any. */
  datatype Yield<T> = Yield(items: seq<T>, raised: Option<string>)

  /** The `parseInput` stage of `createInputStream`: each value is validated in
      arrival order; the first invalid one raises and ends the stream. */
  function ParseValues(values: seq<JsValue>): (r: Yield<string>)
    ensures |r.items| <= |values|
    ensures forall i :: 0 <= i < |r.items| ==> Parsers.ParseInput(values[i]) == Ok(r.items[i])
    ensures r.raised.None? <==> |r.items| == |values|
    ensures r.raised.Some? ==>
      Parsers.ParseInput(values[|r.items|]).Err? && r.raised.value == Parsers.INVALID_INPUT_MESSAGE
  {
    if |values| == 0 then Yield([], None)
    else match Parsers.ParseInput(values[0])
      case Err(e) => Yield([], Some(e))
      case Ok(s) =>
        var rest := ParseValues(values[1..]);
        Yield([s] + rest.items, rest.raised)
  }

  /** A stream of valid inputs is passed through whole. */
  lemma {:induction false} ParseValuesAllValid(values: seq<JsValue>)
    requires forall i :: 0 <= i < |values| ==> Parsers.IsGenerationInput(values[i])
    ensures ParseValues(values).raised.None?
    ensures |ParseValues(values).items| == |values|
  {
    if |values| > 0 {
      assert Parsers.ParseInput(values[0]).Ok?;
      ParseValuesAllValid(values[1..]);
    }
  }

  const BATCH_SIZE_MESSAGE: string := "Batch size must be positive"

  /** The batches of `source`: all full except possibly the last one, which is
      non-empty. */
  ghost predicate IsBatching<T>(batches: seq<seq<T>>, source: seq<T>, batchSize: nat) {
    && Flatten(batches) == source
    && (forall i :: 0 <= i < |batches| - 1 ==> |batches[i]| == batchSize)
    && (|batches| > 0 ==> 1 <= |batches[|batches| - 1]| <= batchSize)
  }

  /** A JavaScript number as `createBatchTransform` receives it.
      `NotANumber` stands for NaN and for a missing size (`undefined`): every
      comparison with either is false. */
  datatype BatchSize = Size(value: real) | NotANumber

  /** `batch.length >= batchSize`. */
  predicate Reached(length: nat, size: BatchSize) {
    size.Size? && length as real >= size.value
  }

  /** The least integer at or above `x`. */
  function Ceil(x: real): (r: int)
    ensures r as real >= x && (r - 1) as real < x
  {
    if x.Floor as real == x then x.Floor else x.Floor + 1
  }

  /** A length reaches a size exactly when it reaches the size rounded up:
      a fractional size behaves like the next integer. */
  lemma ReachedCeil(length: nat, x: real)
    ensures Reached(length, Size(x)) <==> length >= Ceil(x)
  {
    if length >= Ceil(x) {
      assert length as real >= Ceil(x) as real;
    } else {
      assert length <= Ceil(x) - 1;
      assert length as real <= (Ceil(x) - 1) as real;
    }
  }

  /** The state of the transform's loop after the items `prefix`: the
      emitted batches and the pending one. With a numeric size every emitted
      batch holds `Ceil(size)` items and the pending one at most that many;
      with NaN no batch is ever full, so nothing is emitted. */
  ghost predicate Filling<T>(size: BatchSize, batches: seq<seq<T>>, batch: seq<T>, prefix: seq<T>) {
    && Flatten(batches) + batch == prefix
    && (size.NotANumber? ==> batches == [])
    && (size.Size? ==> forall j :: 0 <= j < |batches| ==> |batches[j]| == Ceil(size.value))
    && (size.Size? ==> |batch| <= Ceil(size.value))
    && (|prefix| > 0 ==> |batch| >= 1)
    && (size.Size? ==> |batches| * Ceil(size.value) + |batch| == |prefix|)
  }

  /** One item of the loop: a full pending batch is emitted and a new one is
      started with the item; otherwise the item joins the pending batch. */
  lemma PushKeepsFilling<T>(size: BatchSize, batches: seq<seq<T>>, batch: seq<T>, prefix: seq<T>, item: T)
    requires size.Size? ==> size.value >= 1.0
    requires Filling(size, batches, batch, prefix)
    ensures Reached(|batch|, size) ==> Filling(size, batches + [batch], [item], prefix + [item])
    ensures !Reached(|batch|, size) ==> Filling(size, batches, batch + [item], prefix + [item])
  {
    if Reached(|batch|, size) {
      var k := Ceil(size.value);
      ReachedCeil(|batch|, size.value);
      FlattenSnoc(batches, batch);
      assert (|batches| + 1) * k == |batches| * k + k;
    } else if size.Size? {
      ReachedCeil(|batch|, size.value);
    }
  }

  /** The transform's loop over the whole source. */
  method FillBatches<T>(size: BatchSize, source: seq<T>) returns (batches: seq<seq<T>>, batch: seq<T>)
    requires size.Size? ==> size.value >= 1.0
    ensures Filling(size, batches, batch, source)
  {
    batches := [];
    batch := [];
    for i := 0 to |source|
      invariant Filling(size, batches, batch, source[..i])
    {
      PushKeepsFilling(size, batches, batch, source[..i], source[i]);
      assert source[..i + 1] == source[..i] + [source[i]];
      if Reached(|batch|, size) {
        batches := batches + [batch];
        batch := [];
      }
      batch := batch + [source[i]];
    }
    assert source[..|source|] == source;
  }

  /** `createBatchTransform` applied to `source`: a size below one throws
      before any item is read; otherwise a batch is emitted whenever a new item
      arrives and the pending batch is full, and the last, partial batch after
      the source ends. A fractional size acts as the next integer; a NaN or
      missing size passes the check and yields the whole source as one
      batch. */
  method BatchTransform<T>(size: BatchSize, source: seq<T>) returns (r: Result<seq<seq<T>>, string>)
    ensures r.Err? <==> size.Size? && size.value < 1.0
    ensures r.Err? ==> r.error == BATCH_SIZE_MESSAGE
    ensures r.Ok? && size.Size? ==>
      && IsBatching(r.value, source, Ceil(size.value))
      && |r.value| == CeilDiv(|source|, Ceil(size.value))
    ensures size.NotANumber? ==> r == Ok(if |source| == 0 then [] else [source])
    ensures r.Ok? ==> (|r.value| == 0 <==> |source| == 0)
  {
    if size.Size? && size.value < 1.0 {
      return Err(BATCH_SIZE_MESSAGE);
    }
    var batches, batch := FillBatches(size, source);
    if size.NotANumber? {
      assert Flatten(batches) == [];
      assert batch == source;
    }
    if |batch| > 0 {
      FlattenSnoc(batches, batch);
      assert size.NotANumber? ==> batches + [batch] == [source];
      batches := batches + [batch];
      if size.Size? {
        CeilDivFull(|batches| - 1, |batch|, Ceil(size.value));
      }
    } else {
      assert |source| == 0;
    }
    return Ok(batches);
  }

  /** An integer size is used as it is; 2.5 acts as 3. */
  lemma CeilOfSizes(n: nat)
    ensures Ceil(n as real) == n
    ensures Ceil(2.5) == 3
  {
  }

  /** `k` full batches and a last one of `m` items make `k + 1` batches. */
  lemma CeilDivFull(k: nat, m: nat, d: nat)
    requires d > 0 && 1 <= m <= d
    ensures CeilDiv(k * d + m, d) == k + 1
  {
    assert k * d + m + d - 1 == (k + 1) * d + (m - 1);
    DivUnique(k * d + m + d - 1, d, k + 1, m - 1);
  }

  lemma DivUnique(n: int, d: int, q: int, r: int)
    requires d > 0 && 0 <= r < d && n == q * d + r
    ensures n / d == q
  {
    var q', r' := n / d, n % d;
    assert n == q' * d + r';
    var t := q - q';
    assert t * d == q * d - q' * d by { MulSubDistrib(q, q', d); }
    assert t * d == r' - r;
    if t >= 1 {
      MulAtLeast(t, d);
    } else if t <= -1 {
      MulAtLeast(-t, d);
    }
  }

  lemma MulSubDistrib(a: int, b: int, d: int)
    ensures (a - b) * d == a * d - b * d
  {
  }

  lemma MulAtLeast(t: int, d: int)
    requires t >= 1 && d > 0
    ensures t * d >= d
  {
    assert t * d == d + (t - 1) * d;
  }
}
