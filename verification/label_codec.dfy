/** The label codec the voting combinator fits on the calibration labels: the
    LabelEncoder vocabulary (the distinct labels in ascending order, so that a label's
    index is its rank) and the one-hot vectors of width `num_labels` built on those
    indices. Only the bijection label <-> index <-> one-hot vector is modelled. */
module LabelCodec {
  import opened Outcomes
  import opened FirstMax

  predicate StrictlyIncreasing(c: seq<int>)
  {
    forall i, j :: 0 <= i < j < |c| ==> c[i] < c[j]
  }

  /** Prefixing a value below the first element keeps a sequence ascending. */
  lemma ConsIncreasing(a: int, s: seq<int>)
    requires StrictlyIncreasing(s) && (|s| > 0 ==> a < s[0])
    ensures StrictlyIncreasing([a] + s)
  {
    forall i, j | 0 <= i < j < |[a] + s|
      ensures ([a] + s)[i] < ([a] + s)[j]
    {
      if i > 0 {
        assert ([a] + s)[i] == s[i - 1] && ([a] + s)[j] == s[j - 1];
      } else if j > 1 {
        assert s[0] < s[j - 1];
      }
    }
  }

  /** Adds `x` to an ascending vocabulary, keeping it ascending and duplicate-free. */
  function Insert(c: seq<int>, x: int): (r: seq<int>)
    requires StrictlyIncreasing(c)
    ensures StrictlyIncreasing(r)
    ensures forall z :: z in r <==> z in c || z == x
    ensures |r| > 0 && (r[0] == x || (|c| > 0 && r[0] == c[0]))
  {
    if c == [] then [x]
    else if x < c[0] then ConsIncreasing(x, c); [x] + c
    else if x == c[0] then c
    else
      var rest := Insert(c[1..], x);
      assert c == [c[0]] + c[1..];
      assert rest[0] == x || rest[0] == c[1];
      ConsIncreasing(c[0], rest);
      [c[0]] + rest
  }

  /** The fitted vocabulary of a label sequence: its distinct labels, ascending. */
  function Classes(y: seq<int>): (c: seq<int>)
    ensures StrictlyIncreasing(c)
    ensures forall z :: z in c <==> z in y
  {
    if y == [] then []
    else
      var init := y[..|y| - 1];
      assert forall z :: z in y <==> z in init || z == y[|y| - 1];
      Insert(Classes(init), y[|y| - 1])
  }

  /** An ascending sequence has as many distinct elements as it has positions. */
  lemma {:induction false} DistinctCount(c: seq<int>)
    requires StrictlyIncreasing(c)
    ensures |set z | z in c| == |c|
  {
    if c != [] {
      DistinctCount(c[1..]);
      var tail := set z | z in c[1..];
      assert c[0] !in tail;
      assert (set z | z in c) == {c[0]} + tail;
    }
  }

  /** `num_labels = len(set(y))` is the size of the fitted vocabulary, so every index
      0 .. num_labels-1 names exactly one label. */
  lemma {:induction false} NumLabelsIsVocabularySize(y: seq<int>)
    ensures |Classes(y)| == |set z | z in y|
  {
    var c := Classes(y);
    DistinctCount(c);
    assert (set z | z in c) == (set z | z in y);
  }

  /** Position of `x` in the vocabulary, if it is there. */
  function IndexOf(c: seq<int>, x: int): (r: Option<nat>)
    ensures r.Some? <==> x in c
    ensures r.Some? ==> r.value < |c| && c[r.value] == x
  {
    if c == [] then None
    else if c[0] == x then Some(0)
    else
      match IndexOf(c[1..], x)
      case None => None
      case Some(i) => Some(i + 1)
  }

  /** LabelEncoder.transform on one label. */
  function Encode(c: seq<int>, x: int): (r: Result<nat>)
    ensures r.Failure? <==> x !in c
    ensures r.Failure? ==> r.error == UnknownLabel
    ensures r.Success? ==> r.value < |c| && c[r.value] == x
  {
    match IndexOf(c, x)
    case None => Failure(UnknownLabel)
    case Some(i) => Success(i)
  }

  /** LabelEncoder.inverse_transform on one index. */
  function Decode(c: seq<int>, i: nat): (x: int)
    requires i < |c|
    ensures x in c
  {
    c[i]
  }

  /** Index of a label known to be in the vocabulary. */
  function Index(c: seq<int>, x: int): (i: nat)
    requires x in c
    ensures i < |c| && c[i] == x
  {
    IndexOf(c, x).value
  }

  /** Decoding the encoding of a vocabulary label gives the label back, and a label
      outside the vocabulary is refused. */
  lemma DecodeEncode(c: seq<int>, x: int)
    ensures Encode(c, x).Success? <==> x in c
    ensures Encode(c, x).Success? ==> Encode(c, x).value < |c| && Decode(c, Encode(c, x).value) == x
  {
  }

  /** Encoding the label at index `i` of a fitted vocabulary gives `i` back. */
  lemma {:induction false} EncodeDecode(c: seq<int>, i: nat)
    requires StrictlyIncreasing(c)
    requires i < |c|
    ensures Encode(c, Decode(c, i)) == Success(i)
  {
    var j := Index(c, c[i]);
    assert c[j] == c[i];
  }

  /** The one-hot vector of width `width` with its 1 at `j`. */
  function OneHot(j: nat, width: nat): seq<int>
  {
    seq(width, i => if i == j then 1 else 0)
  }

  predicate IsOneHot(r: seq<int>, width: nat)
  {
    |r| == width && exists j :: 0 <= j < width && r == OneHot(j, width)
  }

  function AsReals(r: seq<int>): (v: seq<real>)
    ensures |v| == |r|
  {
    seq(|r|, i requires 0 <= i < |r| => r[i] as real)
  }

  /** `argmax` of a one-hot vector recovers the index it encodes: this is how
      `transform` turns the voting output back into an index. */
  lemma OneHotArgMax(j: nat, width: nat)
    requires j < width
    ensures ArgMax(AsReals(OneHot(j, width))) == j
  {
    var v := AsReals(OneHot(j, width));
    assert IsFirstMax(v, j);
    FirstMaxUnique(v, j, ArgMax(v));
  }
}
