/** The text a clustering run makes of each centroid: the rendered coordinate
    string and the label under which it is stored and sent back. */
module CentroidText {
  import opened Decimal

  /** Each dimension followed by the separator, in dimension order. */
  function Joined(sep: string, dims: seq<string>): string
  {
    if dims == [] then [] else dims[0] + sep + Joined(sep, dims[1..])
  }

  /** A centroid rendered as SEP d0 SEP d1 SEP ... : the separator, then every
      formatted dimension followed by the separator. */
  function Rendered(sep: string, dims: seq<string>): string
  {
    sep + Joined(sep, dims)
  }

  function SumLengths(dims: seq<string>): nat
  {
    if dims == [] then 0 else |dims[0]| + SumLengths(dims[1..])
  }

  lemma {:induction false} JoinedSplit(sep: string, a: seq<string>, b: seq<string>)
    ensures Joined(sep, a + b) == Joined(sep, a) + Joined(sep, b)
  {
    if a == [] {
      assert a + b == b;
    } else {
      assert (a + b)[1..] == a[1..] + b;
      JoinedSplit(sep, a[1..], b);
    }
  }

  /** Appending one more dimension appends it and one separator. */
  lemma RenderedAppend(sep: string, dims: seq<string>, d: string)
    ensures Rendered(sep, dims + [d]) == Rendered(sep, dims) + d + sep
  {
    JoinedSplit(sep, dims, [d]);
    assert Joined(sep, [d]) == d + sep + Joined(sep, []);
  }

  /** d dimensions render as d + 1 separators and the d values. */
  lemma {:induction false} RenderedLength(sep: string, dims: seq<string>)
    ensures |Rendered(sep, dims)| == (|dims| + 1) * |sep| + SumLengths(dims)
  {
    if dims != [] {
      RenderedLength(sep, dims[1..]);
    }
  }

  /** The rendering begins and ends with the separator. */
  lemma RenderedStartsAndEndsWithSeparator(sep: string, dims: seq<string>)
    ensures |Rendered(sep, dims)| >= |sep|
    ensures Rendered(sep, dims)[..|sep|] == sep
    ensures Rendered(sep, dims)[|Rendered(sep, dims)| - |sep|..] == sep
  {
    var r := Rendered(sep, dims);
    if dims != [] {
      var n := |dims|;
      assert dims == dims[..n - 1] + [dims[n - 1]];
      RenderedAppend(sep, dims[..n - 1], dims[n - 1]);
    }
  }

  /** The layout of dimension k: it starts right after the rendering of the
      dimensions before it, and is immediately followed by the separator. */
  lemma RenderedLayout(sep: string, dims: seq<string>, k: nat)
    requires k < |dims|
    ensures var o := |Rendered(sep, dims[..k])|;
      && o + |dims[k]| + |sep| <= |Rendered(sep, dims)|
      && Rendered(sep, dims)[..o] == Rendered(sep, dims[..k])
      && Rendered(sep, dims)[o..o + |dims[k]|] == dims[k]
      && Rendered(sep, dims)[o + |dims[k]|..o + |dims[k]| + |sep|] == sep
  {
    var pre, rest := dims[..k], dims[k + 1..];
    assert dims == pre + [dims[k]] + rest;
    JoinedSplit(sep, pre + [dims[k]], rest);
    RenderedAppend(sep, pre, dims[k]);
    var r := Rendered(sep, dims);
    assert r == Rendered(sep, pre) + dims[k] + sep + Joined(sep, rest);
  }

  /** Builds the text of one centroid as the source's StringBuilder does: the
      separator first, then each formatted dimension and a separator. */
  method RenderCentroid(sep: string, point: seq<string>) returns (text: string)
    ensures text == Rendered(sep, point)
  {
    text := sep;
    for index := 0 to |point|
      invariant text == Rendered(sep, point[..index])
    {
      assert point[..index + 1] == point[..index] + [point[index]];
      RenderedAppend(sep, point[..index], point[index]);
      text := text + point[index] + sep;
    }
    assert point[..|point|] == point;
  }

  /** Renders every centroid, keeping the clusterer's order. */
  method RenderAll(sep: string, centroids: seq<seq<string>>) returns (result: seq<string>)
    ensures |result| == |centroids|
    ensures forall i :: 0 <= i < |centroids| ==> result[i] == Rendered(sep, centroids[i])
  {
    result := [];
    for i := 0 to |centroids|
      invariant |result| == i
      invariant forall j :: 0 <= j < i ==> result[j] == Rendered(sep, centroids[j])
    {
      var text := RenderCentroid(sep, centroids[i]);
      result := result + [text];
    }
  }

  /** The label of centroid `index` of result `resultID`. */
  function Label(resultID: int, index: nat, rendered: string): string
  {
    "GPS:" + "R_" + IntToString(resultID) + "_Cluster_" + NatToString(index) + rendered
  }

  /** One label per rendered centroid, numbered from 0 in the clusterer's order. */
  function Labels(resultID: int, results: seq<string>): seq<string>
  {
    seq(|results|, i requires 0 <= i < |results| => Label(resultID, i, results[i]))
  }

  /** A label is never empty, and starts with the type tag and result prefix. */
  lemma LabelShape(resultID: int, index: nat, rendered: string)
    ensures |Label(resultID, index, rendered)| >= 6
    ensures Label(resultID, index, rendered)[..6] == "GPS:R_"
    ensures Label(resultID, index, rendered)[|Label(resultID, index, rendered)| - |rendered|..] == rendered
  {
    var l := Label(resultID, index, rendered);
    assert l == "GPS:R_" + (IntToString(resultID) + "_Cluster_" + NatToString(index) + rendered);
  }

  /** The label regrouped from the right, the way it is read back. */
  lemma LabelRegrouped(resultID: int, index: nat, rendered: string)
    ensures Label(resultID, index, rendered)
         == "GPS:R_" + (IntToString(resultID) + ("_Cluster_" + (NatToString(index) + rendered)))
  {
  }

  lemma CancelPrefix(p: string, x: string, y: string)
    requires p + x == p + y
    ensures x == y
  {
    assert x == (p + x)[|p|..];
    assert y == (p + y)[|p|..];
  }

  /** A label can be read back: when the rendering starts with a non-digit
      (as it does whenever the separator does), the result id, the centroid
      index and the rendering are all determined by the label. */
  lemma LabelReadBack(id1: int, i1: nat, r1: string, id2: int, i2: nat, r2: string)
    requires StartsWithNonDigit(r1) && StartsWithNonDigit(r2)
    requires Label(id1, i1, r1) == Label(id2, i2, r2)
    ensures id1 == id2 && i1 == i2 && r1 == r2
  {
    var n1, n2 := NatToString(i1) + r1, NatToString(i2) + r2;
    var t1, t2 := "_Cluster_" + n1, "_Cluster_" + n2;
    LabelRegrouped(id1, i1, r1);
    LabelRegrouped(id2, i2, r2);
    CancelPrefix("GPS:R_", IntToString(id1) + t1, IntToString(id2) + t2);
    IntToStringPrefixUnique(id1, t1, id2, t2);
    CancelPrefix("_Cluster_", n1, n2);
    DigitsSplitUnique(NatToString(i1), r1, NatToString(i2), r2);
    NatToStringInjective(i1, i2);
  }

  /** With a separator that does not begin with a digit, no two centroids of
      one result get the same label. */
  lemma LabelsDistinct(resultID: int, sep: string, centroids: seq<seq<string>>, i: nat, j: nat)
    requires StartsWithNonDigit(sep) && sep != []
    requires i < j < |centroids|
    ensures Label(resultID, i, Rendered(sep, centroids[i])) != Label(resultID, j, Rendered(sep, centroids[j]))
  {
    var ri, rj := Rendered(sep, centroids[i]), Rendered(sep, centroids[j]);
    assert ri[0] == sep[0] && rj[0] == sep[0];
    if Label(resultID, i, ri) == Label(resultID, j, rj) {
      LabelReadBack(resultID, i, ri, resultID, j, rj);
    }
  }
}
