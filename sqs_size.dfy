/**
 * The size estimate of one SQS message (SQSBatcher._estimate_message_size).
 *
 * Text is carried by its UTF-8 encoding and binary values by their raw bytes,
 * so every length below is a byte count.
 */
module SqsSize {
  import opened Wrappers

  newtype byte = x: int | 0 <= x < 256

  type Bytes = seq<byte>

  /** Bytes added per attribute for the framing SQS puts around it. */
  const APPROX_AWS_METADATA_OVERHEAD: nat := 50

  /** SQS accepts at most this many message attributes. */
  const MAX_ATTRIBUTES: nat := 10

  /**
   * One entry of the MessageAttributes dictionary: its name and the keys of
   * its value dictionary that the estimate reads; a key that is absent is None.
   */
  datatype Attribute = Attribute(
    name: Bytes,
    dataType: Option<Bytes>,
    stringValue: Option<Bytes>,
    binaryValue: Option<Bytes>,
    stringListValues: Option<seq<Bytes>>,
    binaryListValues: Option<seq<Bytes>>)

  /** The summed length of a list of values. */
  function TotalLength(values: seq<Bytes>): nat
  {
    if values == [] then 0 else TotalLength(values[..|values| - 1]) + |values[|values| - 1]|
  }

  /** Length of the DataType key, or 0 when it is absent. */
  function DataTypeLength(a: Attribute): nat
  {
    if a.dataType.Some? then |a.dataType.value| else 0
  }

  /**
   * Length of the value payload: taken from the first key present among
   * StringValue, BinaryValue, StringListValues and BinaryListValues, or 0.
   */
  function ValueLength(a: Attribute): nat
  {
    if a.stringValue.Some? then |a.stringValue.value|
    else if a.binaryValue.Some? then |a.binaryValue.value|
    else if a.stringListValues.Some? then TotalLength(a.stringListValues.value)
    else if a.binaryListValues.Some? then TotalLength(a.binaryListValues.value)
    else 0
  }

  /** What one attribute adds to the estimate. */
  function AttributeSize(a: Attribute): nat
  {
    |a.name| + DataTypeLength(a) + ValueLength(a) + APPROX_AWS_METADATA_OVERHEAD
  }

  /** What a list of attributes adds to the estimate; at least the overhead for each. */
  function AttributesSize(attributes: seq<Attribute>): (r: nat)
    ensures r >= APPROX_AWS_METADATA_OVERHEAD * |attributes|
  {
    if attributes == [] then 0
    else AttributesSize(attributes[..|attributes| - 1]) + AttributeSize(attributes[|attributes| - 1])
  }

  /** The estimate of a message: the body's length plus each attribute's size. */
  function MessageSize(body: Bytes, attributes: seq<Attribute>): (r: nat)
    ensures r >= |body| + APPROX_AWS_METADATA_OVERHEAD * |attributes|
    ensures attributes == [] ==> r == |body|
  {
    |body| + AttributesSize(attributes)
  }

  /**
   * The estimate as the source computes it: one pass over the attributes,
   * with an inner pass over a list-valued attribute's elements.
   */
  method EstimateMessageSize(body: Bytes, attributes: seq<Attribute>) returns (size: nat)
    ensures size == MessageSize(body, attributes)
  {
    size := |body|;
    for i := 0 to |attributes|
      invariant size == |body| + AttributesSize(attributes[..i])
    {
      var attr := attributes[i];
      size := size + |attr.name|;
      if attr.dataType.Some? {
        size := size + |attr.dataType.value|;
      }
      if attr.stringValue.Some? {
        size := size + |attr.stringValue.value|;
      } else if attr.binaryValue.Some? {
        size := size + |attr.binaryValue.value|;
      } else if attr.stringListValues.Some? {
        var values := attr.stringListValues.value;
        ghost var before := size;
        for j := 0 to |values|
          invariant size == before + TotalLength(values[..j])
        {
          assert values[..j + 1][..j] == values[..j];
          size := size + |values[j]|;
        }
        assert values[..|values|] == values;
      } else if attr.binaryListValues.Some? {
        var values := attr.binaryListValues.value;
        ghost var before := size;
        for j := 0 to |values|
          invariant size == before + TotalLength(values[..j])
        {
          assert values[..j + 1][..j] == values[..j];
          size := size + |values[j]|;
        }
        assert values[..|values|] == values;
      }
      size := size + APPROX_AWS_METADATA_OVERHEAD;
      assert attributes[..i + 1][..i] == attributes[..i];
    }
    assert attributes[..|attributes|] == attributes;
  }

  /** The attributes' contributions add up: splitting the list splits the size. */
  lemma {:induction false} AttributesSizeAppend(a: seq<Attribute>, b: seq<Attribute>)
    ensures AttributesSize(a + b) == AttributesSize(a) + AttributesSize(b)
    decreases |b|
  {
    if b == [] {
      assert a + b == a;
    } else {
      var b' := b[..|b| - 1];
      assert (a + b)[..|a + b| - 1] == a + b';
      AttributesSizeAppend(a, b');
    }
  }

  /**
   * The estimate does not depend on the order in which the attribute
   * dictionary is iterated: any permutation of the attributes gives the same size.
   */
  lemma {:induction false} AttributesSizePermutation(a: seq<Attribute>, b: seq<Attribute>)
    requires multiset(a) == multiset(b)
    ensures AttributesSize(a) == AttributesSize(b)
    decreases |a|
  {
    if a == [] {
      assert |b| == |multiset(b)| == 0;
    } else {
      var x := a[|a| - 1];
      var a' := a[..|a| - 1];
      MultisetDropLast(a);
      assert x in multiset(b);
      var j :| 0 <= j < |b| && b[j] == x;
      MultisetRemoveAt(b, j);
      AttributesSizeRemoveAt(b, j);
      AttributesSizePermutation(a', b[..j] + b[j + 1..]);
    }
  }

  /** Dropping the last element takes one copy of it out of the multiset. */
  lemma MultisetDropLast<T>(a: seq<T>)
    requires a != []
    ensures multiset(a[..|a| - 1]) == multiset(a) - multiset{a[|a| - 1]}
  {
    assert a == a[..|a| - 1] + [a[|a| - 1]];
  }

  /** Taking out the element at `j` takes one copy of it out of the multiset. */
  lemma MultisetRemoveAt<T>(b: seq<T>, j: nat)
    requires j < |b|
    ensures multiset(b[..j] + b[j + 1..]) == multiset(b) - multiset{b[j]}
  {
    assert b == b[..j] + [b[j]] + b[j + 1..];
    assert multiset(b) == multiset(b[..j]) + multiset{b[j]} + multiset(b[j + 1..]);
  }

  /** A sequence is its prefix up to and including position `j` followed by the rest. */
  lemma SplitAfter<T>(b: seq<T>, j: nat)
    requires j < |b|
    ensures b[..j + 1] + b[j + 1..] == b
    ensures b[..j + 1][..j] == b[..j] && b[..j + 1][j] == b[j] && |b[..j + 1]| == j + 1
  {
  }

  /** Taking out the attribute at `j` takes its size out of the sum. */
  lemma AttributesSizeRemoveAt(b: seq<Attribute>, j: nat)
    requires j < |b|
    ensures AttributesSize(b) == AttributesSize(b[..j] + b[j + 1..]) + AttributeSize(b[j])
  {
    SplitAfter(b, j);
    AttributesSizeAppend(b[..j + 1], b[j + 1..]);
    AttributesSizeAppend(b[..j], b[j + 1..]);
  }

  /** The characters of an ASCII string as their one-byte UTF-8 encoding. */
  function Ascii(s: string): (r: Bytes)
    requires forall i :: 0 <= i < |s| ==> s[i] as int < 128
    ensures |r| == |s|
  {
    seq(|s|, i requires 0 <= i < |s| => s[i] as int as byte)
  }

  /** The three estimates the source's tests check. */
  lemma EstimateExamples()
    ensures MessageSize(Ascii("hello"), []) == 5
    ensures MessageSize(Ascii("hi"), [Attribute(Ascii("a"), Some(Ascii("String")), Some(Ascii("b")), None, None, None)])
            == 2 + 1 + 6 + 1 + APPROX_AWS_METADATA_OVERHEAD
    ensures MessageSize(Ascii("hi"), [Attribute(Ascii("bin"), Some(Ascii("Binary")), None, Some([0, 1]), None, None)])
            == 2 + 3 + 6 + 2 + APPROX_AWS_METADATA_OVERHEAD
  {
    var one := [Attribute(Ascii("a"), Some(Ascii("String")), Some(Ascii("b")), None, None, None)];
    assert one[..0] == [];
    var bin := [Attribute(Ascii("bin"), Some(Ascii("Binary")), None, Some([0, 1]), None, None)];
    assert bin[..0] == [];
  }
}
