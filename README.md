# Clustering worker

A Dafny model of `ClusteringThread.run()`, the worker that clusters a user's
active GPS points into `kValue` centroids and answers on the requester's
channel. The model follows one run from start to finish:

- **Feasibility guard.** If `kValue` is larger than the number of loaded
  points, exactly one `RESPONSE` event is sent ("Not enough coordinates to
  cluster that many centroids"). Nothing is stored.
- **Centroid text.** Each centroid is rendered as `SEP d0 SEP d1 SEP …`: the
  separator, then every formatted dimension followed by the separator.
- **Result record.** A `ClusterResultBean` is stored. It carries the user, id
  `NEW_RESULT` (0), the group, `clusters = kValue`, the point count,
  `TRIAL_RUNS = 1000` and `MAX_ITERATIONS = 4000`.
- **Store failure.** If storing the result bean does not return `SUCCESS`,
  exactly one event is sent ("An error occured while clustering, check logs").
  No centroid bean is stored.
- **Labels and centroid beans.** On success, centroid `i` is labelled
  `"GPS:" + "R_" + newResultID + "_Cluster_" + i + rendering`. A
  `CoordinateBean` is stored for each label, with `isIncluded = false`, the new
  result id and the group.
- **Pages.** The labels are drained four at a time into 4-slot pages padded
  with `""`. One `RESPONSE` event is sent per page. The loop is a do-while, so
  it sends at least one page.

Modules:

- `Decimal`: Java's `Integer.toString`, and the fact that a numeral can be read
  back.
- `CentroidText`: centroid rendering and labels.
- `Paging`: the 4-slot pages.
- `Clustering`: the event and bean records, the event queue, the bean store
  and the `ClusteringThread` class with `Run`.

The worker is an object whose state changes step by step. It is modelled as a
class: the event queue and the bean store are objects holding a `seq`, and
they are only ever appended to. Each loop of the source is a loop of the
model:

- `CentroidText.RenderCentroid` is the `StringBuilder` loop over one
  centroid's dimensions (ClusteringThread.java:86-93, loop at 89-92).
- `CentroidText.RenderAll` is the `forEach` over the centroids
  (ClusteringThread.java:84-94).
- `Clustering.ClusteringThread.StoreCentroids` is the loop that labels and
  stores each centroid (ClusteringThread.java:106-121).
- `Clustering.ClusteringThread.SendPages` is the do-while and its inner loop,
  which fills a 4-element array (ClusteringThread.java:123-136).

The first two are module-level methods of `CentroidText`, since they only
compute text. The other two are methods of `ClusteringThread`, since they
change the store and the queue. `ClusteringThread.Run` calls all four in the
source's order.

Each of these is proved against a specification function (`Rendered`,
`Labels`, `Pages`, `PageEvents`, `CentroidBeans`). The pagination and label
laws are then proved about those functions as lemmas.

The source's collaborators become parameters of `Run`:

- the number of loaded points;
- the clusterer's centroids, with every dimension already formatted;
- the coordinate separator `CoordinateBean.SEPARATOR`;
- the status returned by storing the result bean;
- the latest result id read back for the user.

Behaviours of the code worth knowing:

- With no labels, the do-while still sends one page of four `""` slots:
  `Paging.Pages` gives one page for an empty list, and
  `Paging.PageCount(0) == 1`.
- The code never marks the input points as excluded and never stamps them with
  the result id. It only stores new centroid beans with `isIncluded = false`.
  `Run` states that the store receives exactly the result bean and the
  centroid beans, and nothing else.
- An exception from the clusterer ends `run()` without sending any event. The
  model takes the clusterer's output as given.

## Model

| member | source | states |
|---|---|---|
| `Decimal.NatToString` | ClusteringThread.java:112 | `Integer.toString` of a centroid index is never empty and is all digits. It starts with `0` only for zero, and it has one digit exactly below ten |
| `Decimal.IntToString` | ClusteringThread.java:111 | the text of the result id is never empty. It starts with `-` exactly when the id is negative and is the magnitude's numeral after that. A non-negative id prints as its own numeral, `NatToString(id)` |
| `Decimal.IntToStringRoundTrip` | ClusteringThread.java:111 | reading the printed result id back, sign included, gives the id |
| `Decimal.NatToStringRoundTrip` | ClusteringThread.java:112 | reading the index's numeral back gives the index |
| `Decimal.NatToStringInjective` | ClusteringThread.java:112 | different indices print differently |
| `Decimal.IntToStringPrefixUnique` | ClusteringThread.java:110-112 | when the result id is followed by text that starts with a non-digit, both the id and that text can be recovered from the concatenation |
| `CentroidText.RenderCentroid` | ClusteringThread.java:86-93 | the `StringBuilder` loop (the separator, then each dimension and a separator) builds exactly `Rendered(sep, point)` |
| `CentroidText.RenderAll` | ClusteringThread.java:82-94 | one rendering per centroid, in the clusterer's order. The i-th is `Rendered(sep, centroids[i])` |
| `CentroidText.RenderedAppend` | ClusteringThread.java:89-92 | each further dimension adds that dimension and exactly one separator to the end |
| `CentroidText.RenderedLength` | ClusteringThread.java:86-93 | a centroid with d dimensions renders to text whose length is that of d + 1 separators plus the d dimension texts |
| `CentroidText.RenderedStartsAndEndsWithSeparator` | ClusteringThread.java:88-91 | the rendering starts with the separator and ends with it |
| `CentroidText.RenderedLayout` | ClusteringThread.java:86-93 | dimension k starts right after the rendering of dimensions 0..k-1, which is a prefix of the whole, and is immediately followed by the separator. The dimensions are interleaved with separators in dimension order |
| `CentroidText.LabelShape` | ClusteringThread.java:109-113 | every label starts with `GPS:R_` and ends with the centroid's rendering, so it is never empty |
| `CentroidText.LabelReadBack` | ClusteringThread.java:109-113 | a label determines its result id, centroid index and rendering, whenever renderings start with a non-digit |
| `CentroidText.LabelsDistinct` | ClusteringThread.java:106-114 | with a non-empty separator that does not start with a digit, two centroids of one result never get the same label |
| `Paging.Pages` | ClusteringThread.java:122-136 | every page has exactly 4 slots. For N labels there are ceil(N/4) pages when N > 0, and 1 page when N = 0 |
| `Paging.PagesSlots` | ClusteringThread.java:124-131 | slot s of page p is label 4p+s, or `""` past the end of the list |
| `Paging.OnlyLastPagePadded` | ClusteringThread.java:123-136 | every page except the last holds four consecutive labels, so only the last page can have padding |
| `Paging.FlattenPages` | ClusteringThread.java:123-136 | the pages laid end to end are the labels followed by `""` padding. The padding is under one page unless there were no labels |
| `Paging.PagesRoundTrip` | ClusteringThread.java:123-136 | dropping the trailing `""` padding from the concatenated pages gives back exactly the label list, whenever its last label is not `""` |
| `Clustering.ResponseCarriesAllLabels` | ClusteringThread.java:106-136 | the payloads of the page events of a successful run, concatenated with the padding dropped, are exactly the labels in centroid order |
| `Clustering.EventQueue.Add` | ClusteringThread.java:135 | adding an event appends it to the queue and changes nothing else |
| `Clustering.BeanStore.StoreBean` | ClusteringThread.java:120 | each `storeBean` call appends its bean to the store's log |
| `Clustering.ClusteringThread.Default` | ClusteringThread.java:42-44 | the default worker uses user 2, k = 1, group "default" and channel "" |
| `Clustering.ClusteringThread.constructor` | ClusteringThread.java:46-53 | the worker keeps the queue, user, k, group and channel it is given |
| `Clustering.ClusteringThread.Run` | ClusteringThread.java:55-145 | `kValue > pointCount`: exactly one "Not enough coordinates…" event and nothing stored. Otherwise the result bean (id 0, clusters = kValue, the point count, 1000 trial runs, 4000 iterations) is stored first. A failed store then gives exactly one "An error occured…" event and no centroid bean. Success gives one not-included bean per label, tagged with the new id and the group, then one event per page. Every event is a `RESPONSE` on the worker's channel, and earlier queue contents are unchanged |
| `Clustering.ClusteringThread.StoreCentroids` | ClusteringThread.java:105-121 | the i-th label is `GPS:R_<id>_Cluster_<i><rendering i>`, one per centroid, in order. Exactly one coordinate bean per label is stored, with `isIncluded = false`, the new result id and the group |
| `Clustering.ClusteringThread.SendPages` | ClusteringThread.java:122-136 | the do-while appends exactly one event per page of `Pages(labels)`, in order, on the worker's channel. Each event's payload is that page's 4 slots |

## Left out

- K-Means++ clustering with restarts (`MultiKMeansPlusPlusClusterer`, lines 75-81) is floating-point code in a library outside this model. Its output is an input to `Run`. The model does not require its length to equal `kValue`, and does not model an exception thrown by it.
- The `forEach` that turns the loaded beans into cluster points (lines 63-66) is reduced to their number, `pointCount`. The points themselves only feed the clusterer, which is outside this model.
- `String.format("%.10f", …)` (line 90) converts floating point to decimal text. Each formatted dimension is an opaque string in the model.
- Loading the points (`loadBeansByClause`, line 61), the where clause built for it (lines 59-60) and the read of the latest result id (lines 102-104) are database calls to classes outside this model. `Run` takes the point count and the new id as parameters.
- The status returned by `storeBean` for the result bean is a parameter of `Run`. The status of each centroid bean's `storeBean` call is ignored by the source, so the model ignores it too. `BeanStore.log` records the calls made, not what the database kept.
- `CoordinateBean.SEPARATOR` is defined outside this model. It is a parameter. The label lemmas state their condition on it (non-empty, not starting with a digit).
- The fields of a `CoordinateBean` other than those `run()` sets (user, text, `isIncluded`, result id, group) are not modelled. Neither is the parsing of its text back into coordinates, which is done elsewhere.
- `BlockingQueue` thread-safety, the worker thread's scheduling and any per-user serialisation of the store-then-read-id step are not modelled. The queue is a sequence that is only appended to.
- `System.out.println` (line 108) is logging only.
- A `null` result id (Java `Integer`) is not modelled. The id is an `int`.
