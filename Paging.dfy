/** Splitting the label list into the fixed 4-slot pages a clustering run
    sends back, one response event per page. */
module Paging {

  /** The number of text slots in every page. */
  const FOUR_RESULTS := 4

  /** The page taken from the front of `labels`: its first four entries, with
      "" in the slots past the end of the list. */
  function FirstPage(labels: seq<string>): seq<string>
  {
    seq(FOUR_RESULTS, i requires 0 <= i < FOUR_RESULTS => if i < |labels| then labels[i] else "")
  }

  /** The number of pages for n labels: the loop always sends at least one. */
  function PageCount(n: nat): nat
  {
    if n == 0 then 1 else (n + FOUR_RESULTS - 1) / FOUR_RESULTS
  }

  /** The pages in the order they are sent: one page, then more while labels
      remain. */
  function Pages(labels: seq<string>): (pages: seq<seq<string>>)
    ensures |pages| == PageCount(|labels|)
    ensures forall p :: 0 <= p < |pages| ==> |pages[p]| == FOUR_RESULTS
    decreases |labels|
  {
    if |labels| <= FOUR_RESULTS then [FirstPage(labels)]
    else [FirstPage(labels)] + Pages(labels[FOUR_RESULTS..])
  }

  /** One turn of the do-while: the first page is taken, and what is left of
      the list is paged the same way, or the loop stops when nothing is left. */
  lemma PagesStep(labels: seq<string>, rest: seq<string>)
    requires rest == labels[if |labels| < FOUR_RESULTS then |labels| else FOUR_RESULTS..]
    ensures rest == [] ==> Pages(labels) == [FirstPage(labels)]
    ensures rest != [] ==> Pages(labels) == [FirstPage(labels)] + Pages(rest)
  {
  }

  function Blanks(n: nat): seq<string>
  {
    seq(n, _ => "")
  }

  function Flatten(pages: seq<seq<string>>): seq<string>
  {
    if pages == [] then [] else pages[0] + Flatten(pages[1..])
  }

  /** Drops the trailing "" slots. */
  function Unpadded(slots: seq<string>): seq<string>
  {
    if slots != [] && slots[|slots| - 1] == "" then Unpadded(slots[..|slots| - 1]) else slots
  }

  /** Slot s of page p holds label 4p + s, or "" past the end of the list. */
  lemma {:induction false} PagesSlots(labels: seq<string>, p: nat, s: nat)
    requires p < |Pages(labels)| && s < FOUR_RESULTS
    ensures Pages(labels)[p][s] == if FOUR_RESULTS * p + s < |labels| then labels[FOUR_RESULTS * p + s] else ""
    decreases |labels|
  {
    if p > 0 {
      var rest := labels[FOUR_RESULTS..];
      assert Pages(labels)[p] == Pages(rest)[p - 1];
      PagesSlots(rest, p - 1, s);
    }
  }

  /** Every page but the last is full: it holds four consecutive labels and no
      padding. */
  lemma OnlyLastPagePadded(labels: seq<string>, p: nat)
    requires p + 1 < |Pages(labels)|
    ensures FOUR_RESULTS * p + FOUR_RESULTS <= |labels|
    ensures Pages(labels)[p] == labels[FOUR_RESULTS * p..FOUR_RESULTS * p + FOUR_RESULTS]
  {
    forall s | 0 <= s < FOUR_RESULTS
      ensures Pages(labels)[p][s] == labels[FOUR_RESULTS * p + s]
    {
      PagesSlots(labels, p, s);
    }
  }

  /** The pages, laid end to end, are the labels followed by padding, and the
      padding is less than one page unless there were no labels at all. */
  lemma {:induction false} FlattenPages(labels: seq<string>)
    ensures Flatten(Pages(labels)) == labels + Blanks(FOUR_RESULTS * |Pages(labels)| - |labels|)
    ensures FOUR_RESULTS * |Pages(labels)| - |labels| < FOUR_RESULTS || labels == []
    decreases |labels|
  {
    if |labels| <= FOUR_RESULTS {
      assert Flatten([FirstPage(labels)]) == FirstPage(labels) + Flatten([]);
      assert FirstPage(labels) == labels + Blanks(FOUR_RESULTS - |labels|);
    } else {
      var rest := labels[FOUR_RESULTS..];
      FlattenPages(rest);
      assert Pages(labels)[1..] == Pages(rest);
      assert FirstPage(labels) == labels[..FOUR_RESULTS];
      assert labels == labels[..FOUR_RESULTS] + rest;
    }
  }

  lemma {:induction false} UnpaddedBlanks(labels: seq<string>, n: nat)
    requires labels == [] || labels[|labels| - 1] != ""
    ensures Unpadded(labels + Blanks(n)) == labels
  {
    if n == 0 {
      assert labels + Blanks(0) == labels;
    } else {
      assert (labels + Blanks(n))[..|labels| + n - 1] == labels + Blanks(n - 1);
      UnpaddedBlanks(labels, n - 1);
    }
  }

  /** Dropping the "" padding from the concatenated pages gives back exactly
      the labels, when the last label is not itself "". */
  lemma PagesRoundTrip(labels: seq<string>)
    requires labels == [] || labels[|labels| - 1] != ""
    ensures Unpadded(Flatten(Pages(labels))) == labels
  {
    var pages := Pages(labels);
    FlattenPages(labels);
    var pad := FOUR_RESULTS * |pages| - |labels|;
    assert Flatten(pages) == labels + Blanks(pad);
    UnpaddedBlanks(labels, pad);
  }
}
