/**
 * Batch.java: a mini-batch sampler over a labelled data set. It keeps its own copy of the
 * embeddings and labels, reshuffles them with Fisher-Yates whenever the next window would run
 * past the end, and loads each window into an input matrix (one embedding per column) and a
 * one-hot target matrix.
 */
module Batches {
  import opened Errors
  import opened Dense
  import opened Matrices
  import Losses

  /** The value a generator whose k-th draw below bound is stream(k, bound) returns, in [0, bound). */
  function Draw(stream: (nat, nat) -> nat, k: nat, bound: nat): (j: nat)
    requires bound > 0
    ensures j < bound
  {
    stream(k, bound) % bound
  }

  /** java.util.Random as an oracle: the k-th value it draws below a bound is stream(k, bound). */
  class Random {
    const stream: (nat, nat) -> nat
    /** How many values have been drawn so far. */
    var drawn: nat

    constructor(stream: (nat, nat) -> nat)
      ensures this.stream == stream && drawn == 0
    {
      this.stream := stream;
      drawn := 0;
    }

    /** nextInt(bound): the next value of the stream, in [0, bound). */
    method NextInt(bound: nat) returns (j: nat)
      requires bound > 0
      modifies this
      ensures j < bound && j == Draw(stream, old(drawn), bound) && drawn == old(drawn) + 1
    {
      j := Draw(stream, drawn, bound);
      drawn := drawn + 1;
    }
  }

  /** s with the entries at i and j exchanged. */
  function Swapped<T>(s: seq<T>, i: nat, j: nat): (r: seq<T>)
    requires i < |s| && j < |s|
    ensures |r| == |s| && r[i] == s[j] && r[j] == s[i]
    ensures forall k :: 0 <= k < |s| && k != i && k != j ==> r[k] == s[k]
  {
    s[i := s[j]][j := s[i]]
  }

  /** Exchanging two entries keeps every entry, as often as it occurs. */
  lemma SwappedPermutes<T>(s: seq<T>, i: nat, j: nat)
    requires i < |s| && j < |s|
    ensures multiset(Swapped(s, i, j)) == multiset(s)
  {
  }

  /** Exchanging the same two entries again undoes the exchange. */
  lemma SwappedTwice<T>(s: seq<T>, i: nat, j: nat)
    requires i < |s| && j < |s|
    ensures Swapped(Swapped(s, i, j), i, j) == s
  {
  }

  /**
   * Fisher-Yates from position top down to 1: position i is exchanged with a position drawn
   * below i + 1, the draws taken from the stream starting at its drawn-th value.
   */
  function Shuffled<T>(s: seq<T>, stream: (nat, nat) -> nat, drawn: nat, top: nat): (r: seq<T>)
    requires top < |s| || top == 0
    ensures |r| == |s|
    decreases top
  {
    if top == 0 then s
    else Shuffled(Swapped(s, top, Draw(stream, drawn, top + 1)), stream, drawn + 1, top - 1)
  }

  /** A Fisher-Yates shuffle is a permutation: it keeps every entry, as often as it occurs. */
  lemma {:induction false} ShuffledPermutes<T>(s: seq<T>, stream: (nat, nat) -> nat, drawn: nat, top: nat)
    requires top < |s| || top == 0
    ensures multiset(Shuffled(s, stream, drawn, top)) == multiset(s)
    decreases top
  {
    if top > 0 {
      var j := Draw(stream, drawn, top + 1);
      SwappedPermutes(s, top, j);
      ShuffledPermutes(Swapped(s, top, j), stream, drawn + 1, top - 1);
    }
  }

  /** The examples as (embedding, label) pairs: entry k pairs embedding k with label k. */
  function Zip(E: seq<seq<real>>, Ls: seq<int>): (P: seq<(seq<real>, int)>)
    requires |E| <= |Ls|
    ensures |P| == |E| && forall k :: 0 <= k < |E| ==> P[k] == (E[k], Ls[k])
  {
    seq(|E|, k requires 0 <= k < |E| => (E[k], Ls[k]))
  }

  /** Exchanging two embeddings and the same two labels exchanges the two pairs. */
  lemma ZipSwapped(E: seq<seq<real>>, Ls: seq<int>, i: nat, j: nat)
    requires i < |E| && j < |E| && |E| <= |Ls|
    ensures Zip(Swapped(E, i, j), Swapped(Ls, i, j)) == Swapped(Zip(E, Ls), i, j)
  {
  }

  /** Every label of a permutation of pairs whose labels lie in [0, classes) lies there too. */
  lemma LabelsPermuted(P: seq<(seq<real>, int)>, Q: seq<(seq<real>, int)>, classes: int)
    requires multiset(Q) == multiset(P)
    requires forall k :: 0 <= k < |P| ==> 0 <= P[k].1 < classes
    ensures forall k :: 0 <= k < |Q| ==> 0 <= Q[k].1 < classes
  {
    forall k | 0 <= k < |Q|
      ensures 0 <= Q[k].1 < classes
    {
      assert Q[k] in multiset(Q);
      var i :| 0 <= i < |P| && P[i] == Q[k];
    }
  }

  /** Every embedding of a permutation of pairs whose embeddings have size entries has size entries too. */
  lemma SizesPermuted(P: seq<(seq<real>, int)>, Q: seq<(seq<real>, int)>, size: nat)
    requires multiset(Q) == multiset(P)
    requires forall k :: 0 <= k < |P| ==> |P[k].0| == size
    ensures forall k :: 0 <= k < |Q| ==> |Q[k].0| == size
  {
    forall k | 0 <= k < |Q|
      ensures |Q[k].0| == size
    {
      assert Q[k] in multiset(Q);
      var i :| 0 <= i < |P| && P[i] == Q[k];
    }
  }

  /** The column label y is loaded as: 1 at row y, 0 in the other rows. */
  function OneHotColumn(y: int, classes: nat): (t: seq<real>)
    ensures 0 <= y < classes ==> Losses.OneHot(t, y as nat)
    ensures |t| == classes
  {
    seq(classes, j => if j == y then 1.0 else 0.0)
  }

  /**
   * The row loop of next() for one column: set(j, c, col[j]) for every row j, which writes col
   * into column c and leaves every other column as it was.
   */
  method FillColumn(M: Matrix, c: nat, col: seq<real>)
    requires M.Valid() && c < M.Cols() && |col| == M.Rows()
    modifies M.data
    ensures M.Valid() && Losses.Column(M.View(), c, M.Rows()) == col
    ensures forall i, j :: 0 <= i < M.Rows() && 0 <= j < M.Cols() && j != c ==>
              M.View().Get(i, j) == old(M.View()).Get(i, j)
  {
    var i := 0;
    while i < |col|
      invariant i <= |col|
      invariant forall i', j :: 0 <= i' < M.Rows() && 0 <= j < M.Cols() ==>
                  M.View().Get(i', j) == if j == c && i' < i then col[i'] else old(M.View()).Get(i', j)
    {
      var s := M.Set(i, c, col[i]);
      i := i + 1;
    }
  }

  class Batch {
    const random: Random
    /** The first example of the current window. */
    var index: int

    const embeddings: array<seq<real>>
    const labels: array<int>

    const input: Matrix
    const target: Matrix

    const batchSize: nat
    const numClasses: nat
    const embeddingSize: nat

    /**
     * Every embedding has embeddingSize entries, and input and target are embeddingSize x
     * batchSize and numClasses x batchSize with buffers of their own.
     */
    ghost predicate Fitted()
      reads this, embeddings, input, target
    {
      (forall k :: 0 <= k < embeddings.Length ==> |embeddings[k]| == embeddingSize) &&
      Shaped(input, embeddingSize, batchSize) && Shaped(target, numClasses, batchSize) &&
      input.data != target.data
    }

    /** Fitted, and there is a label for every example unless there is at most one. */
    ghost predicate Structured()
      reads this, embeddings, labels, input, target
    {
      Fitted() && (labels.Length >= embeddings.Length || embeddings.Length <= 1)
    }

    /** The cursor is at least -batchSize, and its window fits whenever a whole batch does. */
    ghost predicate Placed()
      reads this
    {
      -(batchSize as int) <= index &&
      (batchSize <= embeddings.Length ==> index + batchSize <= embeddings.Length)
    }

    /** The state between calls: well structured, and the cursor at the window last loaded. */
    ghost predicate Valid()
      reads this, embeddings, labels, input, target
    {
      Structured() && Placed() && 0 <= index
    }

    /** The examples as (embedding, label) pairs. */
    ghost function Pairs(): (P: seq<(seq<real>, int)>)
      reads this, embeddings, labels
      requires labels.Length >= embeddings.Length
    {
      Zip(embeddings[..], labels[..])
    }

    /** Every example's label names one of the classes. */
    ghost predicate LabelsInRange()
      reads this, labels
    {
      labels.Length >= embeddings.Length &&
      forall k :: 0 <= k < embeddings.Length ==> 0 <= labels[k] < numClasses
    }

    /** The last position a shuffle exchanges. */
    function Top(): nat
    {
      if embeddings.Length == 0 then 0 else embeddings.Length - 1
    }

    /** The window after the one at from would run past the last example. */
    predicate Overruns(from: int)
    {
      from + batchSize + batchSize > embeddings.Length
    }

    /**
     * The cursor next() moves to from from: one batch on, or back to 0 after a reshuffle. The
     * window at the new cursor lies within the examples unless the cursor went back to 0, and
     * from the starting cursor -batchSize on it is never negative.
     */
    function Advanced(from: int): (at: int)
      ensures at == 0 || at == from + batchSize
      ensures at == 0 || at + batchSize <= embeddings.Length
      ensures from >= -(batchSize as int) ==> at >= 0
    {
      if Overruns(from) then 0 else from + batchSize
    }

    /**
     * What loading column c of the window at at throws, if anything: reading its label, the
     * label's range check, then reading its embedding (only when there is a row to write).
     */
    ghost function Fault(at: int, c: nat): (f: Option<Error>)
      reads this, labels
      requires 0 <= at
      ensures f == None <==>
                at + c < labels.Length && 0 <= labels[at + c] < numClasses &&
                (embeddingSize > 0 ==> at + c < embeddings.Length)
      ensures at + c >= labels.Length ==> f == Some(IndexOutOfBounds)
      ensures f == Some(IllegalArgument) <==> at + c < labels.Length && !(0 <= labels[at + c] < numClasses)
    {
      if at + c >= labels.Length then Some(IndexOutOfBounds)
      else if labels[at + c] < 0 || labels[at + c] >= numClasses then Some(IllegalArgument)
      else if embeddingSize > 0 && at + c >= embeddings.Length then Some(IndexOutOfBounds)
      else None
    }

    /** Column c of input holds embedding at + c and column c of target is one-hot at its label. */
    ghost predicate Holds(at: int, c: nat)
      reads this, embeddings, labels, input, input.data, target, target.data
      requires Shaped(input, embeddingSize, batchSize) && Shaped(target, numClasses, batchSize)
      requires 0 <= at && c < batchSize && Fault(at, c) == None
    {
      (embeddingSize > 0 ==> Losses.Column(input.View(), c, embeddingSize) == embeddings[at + c]) &&
      Losses.OneHot(Losses.Column(target.View(), c, numClasses), labels[at + c] as nat)
    }

    /** Columns 0 .. k - 1 hold the first k examples of the window at at. */
    ghost predicate Loaded(at: int, k: nat)
      reads this, embeddings, labels, input, input.data, target, target.data
      requires Shaped(input, embeddingSize, batchSize) && Shaped(target, numClasses, batchSize)
      requires 0 <= at && k <= batchSize
    {
      forall c :: 0 <= c < k ==> Fault(at, c) == None && Holds(at, c)
    }

    /** The examples of rows, with their labels, unshuffled; input and target zero; index -batchSize. */
    constructor Init(rows: seq<seq<real>>, labels: seq<int>, numClasses: nat, embeddingSize: nat, batchSize: nat,
                     random: Random)
      requires forall k :: 0 <= k < |rows| ==> |rows[k]| == embeddingSize
      ensures embeddings[..] == rows && this.labels[..] == labels && index == -(batchSize as int)
      ensures this.random == random && this.numClasses == numClasses
      ensures this.embeddingSize == embeddingSize && this.batchSize == batchSize
      ensures Shaped(input, embeddingSize, batchSize) && Shaped(target, numClasses, batchSize)
      ensures fresh(embeddings) && fresh(this.labels) && fresh(input) && fresh(input.data)
      ensures fresh(target) && fresh(target.data) && input.data != target.data
    {
      this.random := random;
      this.embeddingSize := embeddingSize;
      embeddings := new seq<real>[|rows|](k requires 0 <= k < |rows| => rows[k]);
      this.labels := new int[|labels|](k requires 0 <= k < |labels| => labels[k]);
      input := new Matrix(embeddingSize, batchSize);
      target := new Matrix(numClasses, batchSize);
      this.batchSize := batchSize;
      this.numClasses := numClasses;
      index := -(batchSize as int);
    }

    /**
     * new Batch(embeddings, labels, len, numClasses, embeddingSize, batchSize, random): copies the
     * first len embeddings, throwing at the first that is missing or of the wrong size, copies
     * the labels, makes zero input and target matrices, shuffles and loads the first window.
     */
    static method New(embeddings: seq<seq<real>>, labels: seq<int>, len: nat, numClasses: nat, embeddingSize: nat,
                      batchSize: nat, random: Random) returns (r: Result<Batch>)
      modifies random
      ensures (exists k :: 0 <= k < len && k < |embeddings| && |embeddings[k]| != embeddingSize) ==>
                r == Err(IllegalArgument)
      ensures len > |embeddings| && (forall k :: 0 <= k < |embeddings| ==> |embeddings[k]| == embeddingSize) ==>
                r == Err(IndexOutOfBounds)
      ensures len <= |embeddings| && (forall k :: 0 <= k < len ==> |embeddings[k]| == embeddingSize) &&
              2 <= len && |labels| < len ==>
                r == Err(IndexOutOfBounds)
      ensures len <= |embeddings| && (forall k :: 0 <= k < len ==> |embeddings[k]| == embeddingSize) &&
              len <= |labels| && (forall k :: 0 <= k < len ==> 0 <= labels[k] < numClasses) && batchSize <= len ==>
                r.Ok?
      ensures r.Ok? ==>
                fresh(r.value) && fresh(r.value.embeddings) && fresh(r.value.labels) &&
                fresh(r.value.input) && fresh(r.value.input.data) &&
                fresh(r.value.target) && fresh(r.value.target.data)
      ensures r.Ok? ==>
                var b := r.value;
                b.random == random && b.numClasses == numClasses && b.embeddingSize == embeddingSize &&
                b.batchSize == batchSize && b.embeddings.Length == len &&
                b.Valid() && b.index == 0 && b.Loaded(0, batchSize)
      ensures r.Ok? && len <= |labels| ==>
                var b := r.value;
                b.labels.Length == |labels| && b.labels[len..] == labels[len..] &&
                multiset(b.Pairs()) == multiset(Zip(embeddings[..len], labels))
    {
      var k := 0;
      while k < len
        invariant k <= len && k <= |embeddings|
        invariant forall k' :: 0 <= k' < k ==> |embeddings[k']| == embeddingSize
      {
        if k >= |embeddings| {
          return Err(IndexOutOfBounds);
        }
        if |embeddings[k]| != embeddingSize {
          return Err(IllegalArgument);
        }
        k := k + 1;
      }
      var b := new Batch.Init(embeddings[..len], labels, numClasses, embeddingSize, batchSize, random);
      if len <= |labels| {
        assert b.Pairs() == Zip(embeddings[..len], labels);
      }
      var s := b.Start();
      if s.Fail? {
        return Err(s.error);
      }
      return Ok(b);
    }

    /** swap(i, j): exchanges embeddings i and j, then labels i and j, which throws if either is missing. */
    method Swap(i: nat, j: nat) returns (r: Outcome)
      requires i < embeddings.Length && j < embeddings.Length
      modifies embeddings, labels
      ensures embeddings[..] == Swapped(old(embeddings[..]), i, j)
      ensures r.Pass? <==> i < labels.Length && j < labels.Length
      ensures r.Fail? ==> r.error == IndexOutOfBounds && labels[..] == old(labels[..])
      ensures r.Pass? ==> labels[..] == Swapped(old(labels[..]), i, j)
    {
      var tempValue := embeddings[i];
      embeddings[i] := embeddings[j];
      embeddings[j] := tempValue;
      if i >= labels.Length || j >= labels.Length {
        return Fail(IndexOutOfBounds);
      }
      var tempLabel := labels[i];
      labels[i] := labels[j];
      labels[j] := tempLabel;
      r := Pass;
    }

    /**
     * shuffle(): Fisher-Yates from the last example down to the second, each exchanged with one
     * drawn at or below it. Without a label for every example the first exchange throws after
     * its embeddings have moved.
     */
    method Shuffle() returns (r: Outcome)
      modifies embeddings, labels, random
      ensures r.Pass? <==> embeddings.Length < 2 || labels.Length >= embeddings.Length
      ensures r.Fail? ==>
                r.error == IndexOutOfBounds && labels[..] == old(labels[..]) && random.drawn == old(random.drawn) + 1 &&
                embeddings[..] == Swapped(old(embeddings[..]), Top(), Draw(random.stream, old(random.drawn), Top() + 1))
      ensures embeddings.Length < 2 ==>
                embeddings[..] == old(embeddings[..]) && labels[..] == old(labels[..]) && random.drawn == old(random.drawn)
      ensures labels.Length >= embeddings.Length ==>
                Pairs() == Shuffled(old(Pairs()), random.stream, old(random.drawn), Top()) &&
                labels[embeddings.Length..] == old(labels[embeddings.Length..]) &&
                random.drawn == old(random.drawn) + Top()
    {
      ghost var full := labels.Length >= embeddings.Length;
      ghost var P0 := if full then Pairs() else [];
      var i: nat := Top();
      while i > 0
        invariant i <= Top() && (!full ==> i == Top())
        invariant i == Top() ==> embeddings[..] == old(embeddings[..]) && labels[..] == old(labels[..])
        invariant random.drawn + i == old(random.drawn) + Top()
        invariant full ==> Shuffled(Pairs(), random.stream, random.drawn, i) == Shuffled(P0, random.stream, old(random.drawn), Top())
        invariant full ==> labels[embeddings.Length..] == old(labels[embeddings.Length..])
      {
        r := Exchange(i);
        if r.Fail? {
          return;
        }
        i := i - 1;
      }
      r := Pass;
    }

    /**
     * The end of the constructor: shuffle(), then next() from index -batchSize, which lands on
     * index 0 (shuffling a second time when a whole batch does not fit).
     */
    method Start() returns (r: Outcome)
      requires Fitted() && index == -(batchSize as int)
      modifies this, embeddings, labels, random, input.data, target.data
      ensures r.Pass? ==> Valid() && index == 0 && Loaded(0, batchSize)
      ensures 2 <= embeddings.Length && labels.Length < embeddings.Length ==> r == Fail(IndexOutOfBounds)
      ensures labels.Length >= embeddings.Length && r.Pass? ==>
                multiset(Pairs()) == multiset(old(Pairs())) && labels[embeddings.Length..] == old(labels[embeddings.Length..])
      ensures old(LabelsInRange()) && batchSize <= embeddings.Length ==> r.Pass?
    {
      ghost var full := labels.Length >= embeddings.Length;
      ghost var P0 := if full then Pairs() else [];
      r := Shuffle();
      if r.Fail? {
        return;
      }
      ghost var P1 := if full then Pairs() else [];
      ghost var d1 := random.drawn;
      if full {
        ShuffledPermutes(P0, random.stream, old(random.drawn), Top());
        SizesPermuted(P0, P1, embeddingSize);
        if old(LabelsInRange()) {
          LabelsPermuted(P0, P1, numClasses);
        }
      }
      ghost var stop;
      r, stop := Next();
      if full && r.Pass? && Overruns(-(batchSize as int)) {
        ShuffledPermutes(P1, random.stream, d1, Top());
      }
    }

    /**
     * next(): moves the cursor one batch on, reshuffling and going back to 0 when the window
     * after the current one would run past the last example, then loads the window into input
     * and target. It throws at the first column whose label is missing or out of range or whose
     * embedding is missing; stop is that column, or batchSize. With a whole batch of examples
     * and every label in range it does not throw.
     */
    method Next() returns (r: Outcome, ghost stop: nat)
      requires Structured() && Placed()
      modifies this, embeddings, labels, random, input.data, target.data
      ensures Valid() && index == Advanced(old(index))
      ensures !Overruns(old(index)) || embeddings.Length < 2 ==>
                embeddings[..] == old(embeddings[..]) && labels[..] == old(labels[..]) &&
                random.drawn == old(random.drawn)
      ensures labels.Length >= embeddings.Length && Overruns(old(index)) ==>
                Pairs() == Shuffled(old(Pairs()), random.stream, old(random.drawn), Top()) &&
                labels[embeddings.Length..] == old(labels[embeddings.Length..]) &&
                random.drawn == old(random.drawn) + Top()
      ensures stop <= batchSize && (r.Pass? <==> stop == batchSize)
      ensures r.Pass? <==> forall c :: 0 <= c < batchSize ==> Fault(index, c) == None
      ensures r.Fail? ==> Fault(index, stop) == Some(r.error)
      ensures Loaded(index, stop)
      ensures forall i, j :: 0 <= i < embeddingSize && stop <= j < batchSize ==>
                input.View().Get(i, j) == old(input.View()).Get(i, j)
      ensures forall i, j :: 0 <= i < numClasses && stop <= j < batchSize ==>
                target.View().Get(i, j) == old(target.View()).Get(i, j)
      ensures batchSize <= embeddings.Length && old(LabelsInRange()) ==> r.Pass?
    {
      Reposition();
      r, stop := Load(index);
      if batchSize <= embeddings.Length && old(LabelsInRange()) {
        assert forall c :: 0 <= c < batchSize ==> Fault(index, c) == None;
      }
    }

    /**
     * The cursor step of next(): one batch on, or, when the window after that would run past
     * the last example, a shuffle and back to 0. Under Structured() the shuffle does not throw,
     * and it keeps every embedding's size and every label in range.
     */
    method Reposition()
      requires Structured() && Placed()
      modifies this, embeddings, labels, random
      ensures Valid() && index == Advanced(old(index))
      ensures !Overruns(old(index)) || embeddings.Length < 2 ==>
                embeddings[..] == old(embeddings[..]) && labels[..] == old(labels[..]) &&
                random.drawn == old(random.drawn)
      ensures labels.Length >= embeddings.Length && Overruns(old(index)) ==>
                Pairs() == Shuffled(old(Pairs()), random.stream, old(random.drawn), Top()) &&
                labels[embeddings.Length..] == old(labels[embeddings.Length..]) &&
                random.drawn == old(random.drawn) + Top()
      ensures old(LabelsInRange()) ==> LabelsInRange()
    {
      index := index + batchSize;
      if index + batchSize > embeddings.Length {
        ghost var full := labels.Length >= embeddings.Length;
        ghost var P0 := if full then Pairs() else [];
        var s := Shuffle();
        assert s.Pass?;
        if full {
          ShuffledPermutes(P0, random.stream, old(random.drawn), Top());
          SizesPermuted(P0, Pairs(), embeddingSize);
          if old(LabelsInRange()) {
            LabelsPermuted(P0, Pairs(), numClasses);
          }
        }
        index := 0;
      }
    }

    /**
     * The column loop of next(): loads column c of input and target from example at + c, for c
     * from 0, and stops at the first column that throws (columns before it loaded, the others
     * as they were); stop is that column, or batchSize.
     */
    method Load(at: nat) returns (r: Outcome, ghost stop: nat)
      requires Structured()
      modifies input.data, target.data
      ensures stop <= batchSize && (r.Pass? <==> stop == batchSize)
      ensures r.Pass? <==> forall c :: 0 <= c < batchSize ==> Fault(at, c) == None
      ensures r.Fail? ==> Fault(at, stop) == Some(r.error)
      ensures Loaded(at, stop)
      ensures forall i, j :: 0 <= i < embeddingSize && stop <= j < batchSize ==>
                input.View().Get(i, j) == old(input.View()).Get(i, j)
      ensures forall i, j :: 0 <= i < numClasses && stop <= j < batchSize ==>
                target.View().Get(i, j) == old(target.View()).Get(i, j)
    {
      var c := 0;
      while c < batchSize
        invariant c <= batchSize && Loaded(at, c)
        invariant forall i, j :: 0 <= i < embeddingSize && c <= j < batchSize ==>
                    input.View().Get(i, j) == old(input.View()).Get(i, j)
        invariant forall i, j :: 0 <= i < numClasses && c <= j < batchSize ==>
                    target.View().Get(i, j) == old(target.View()).Get(i, j)
      {
        r := LoadColumn(at, c);
        if r.Fail? {
          return r, c;
        }
        c := c + 1;
      }
      r, stop := Pass, batchSize;
    }

    /**
     * One round of the column loop: reads label at + c and checks its range, writes embedding
     * at + c into column c of input (reading it only when there is a row to write), and writes
     * the one-hot column of the label into column c of target.
     */
    method LoadColumn(at: nat, c: nat) returns (r: Outcome)
      requires Structured() && c < batchSize
      modifies input.data, target.data
      ensures r == if Fault(at, c) == None then Pass else Fail(Fault(at, c).value)
      ensures r.Fail? ==> input.View() == old(input.View()) && target.View() == old(target.View())
      ensures r.Pass? ==> Holds(at, c)
      ensures r.Pass? && old(Loaded(at, c)) ==> Loaded(at, c + 1)
      ensures forall i, j :: 0 <= i < embeddingSize && 0 <= j < batchSize && j != c ==>
                input.View().Get(i, j) == old(input.View()).Get(i, j)
      ensures forall i, j :: 0 <= i < numClasses && 0 <= j < batchSize && j != c ==>
                target.View().Get(i, j) == old(target.View()).Get(i, j)
    {
      if at + c >= labels.Length {
        return Fail(IndexOutOfBounds);
      }
      var y := labels[at + c];
      if y < 0 || y >= numClasses {
        return Fail(IllegalArgument);
      }
      if embeddingSize > 0 {
        if at + c >= embeddings.Length {
          return Fail(IndexOutOfBounds);
        }
        FillColumn(input, c, embeddings[at + c]);
      }
      FillColumn(target, c, OneHotColumn(y, numClasses));
      r := Pass;

    }

    /** One round of shuffle: draws j in [0, i] and swaps i and j. */
    method Exchange(i: nat) returns (r: Outcome)
      requires i < embeddings.Length
      modifies embeddings, labels, random
      ensures random.drawn == old(random.drawn) + 1
      ensures embeddings[..] == Swapped(old(embeddings[..]), i, Draw(random.stream, old(random.drawn), i + 1))
      ensures r.Pass? <==> i < labels.Length
      ensures r.Fail? ==> r.error == IndexOutOfBounds && labels[..] == old(labels[..])
      ensures labels.Length >= embeddings.Length ==>
                Pairs() == Swapped(old(Pairs()), i, Draw(random.stream, old(random.drawn), i + 1)) &&
                labels[embeddings.Length..] == old(labels[embeddings.Length..])
      ensures labels.Length >= embeddings.Length && i > 0 ==>
                Shuffled(Pairs(), random.stream, random.drawn, i - 1) == Shuffled(old(Pairs()), random.stream, old(random.drawn), i)
    {
      var j := random.NextInt(i + 1);
      r := Swap(i, j);
      if labels.Length >= embeddings.Length {
        ZipSwapped(old(embeddings[..]), old(labels[..]), i, j);
      }
    }
  }
}
