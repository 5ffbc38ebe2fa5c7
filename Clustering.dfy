/** The clustering worker: loads a user's active points, refuses a request for
    more centroids than points, records the result, stores one new coordinate
    bean per centroid and sends the labels back four at a time. */
module Clustering {
  import opened Decimal
  import opened CentroidText
  import opened Paging

  const NEW_RESULT := 0
  const SUCCESS := 0
  const ADMIN_TEST_USER := 2
  const SINGLE_CLUSTER := 1
  const DEFAULT_NAME := "default"
  const TRIAL_RUNS := 1000
  const MAX_ITERATIONS := 4000

  const NOT_ENOUGH_POINTS := "Not enough coordinates to cluster that many centroids"
  const CLUSTERING_ERROR := "An error occured while clustering, check logs"

  datatype EventType = RESPONSE

  /** An outbound event: its type, its text slots and the channel it answers. */
  datatype Event = Event(kind: EventType, payload: seq<string>, channel: string)

  /** A stored point record; a centroid is stored as one of these, its text
      being the centroid's label. */
  datatype CoordinateBean = CoordinateBean(
    userID: int, text: string, isIncluded: bool, resultID: int, groupName: string)

  /** The record of one clustering run. */
  datatype ClusterResultBean = ClusterResultBean(
    userID: int, resultID: int, groupName: string, clusters: int,
    pointCount: nat, trialRuns: int, maxIterations: int)

  /** One call to a bean store. */
  datatype StoredBean = StoredResult(result: ClusterResultBean) | StoredCoordinate(coordinate: CoordinateBean)

  /** The response event for one page. */
  function PageEvents(pages: seq<seq<string>>, channel: string): seq<Event>
  {
    seq(|pages|, i requires 0 <= i < |pages| => Event(RESPONSE, pages[i], channel))
  }

  lemma PageEventsAppend(pages: seq<seq<string>>, page: seq<string>, channel: string)
    ensures PageEvents(pages + [page], channel) == PageEvents(pages, channel) + [Event(RESPONSE, page, channel)]
  {
  }

  /** The coordinate bean stored for each label: not included, tagged with the
      result id and the group. */
  function CentroidBeans(userID: int, groupName: string, resultID: int, labels: seq<string>): seq<StoredBean>
  {
    seq(|labels|, i requires 0 <= i < |labels| =>
      StoredCoordinate(CoordinateBean(userID, labels[i], false, resultID, groupName)))
  }

  /** The text slots of a sequence of events, laid end to end. */
  function Payloads(events: seq<Event>): seq<seq<string>>
  {
    seq(|events|, i requires 0 <= i < |events| => events[i].payload)
  }

  /** What a successful run sends back reproduces its labels: laying the page
      events' slots end to end and dropping the "" padding gives exactly the
      labels, in centroid order. */
  lemma ResponseCarriesAllLabels(resultID: int, results: seq<string>, channel: string)
    ensures Unpadded(Flatten(Payloads(PageEvents(Pages(Labels(resultID, results)), channel))))
         == Labels(resultID, results)
  {
    var labels := Labels(resultID, results);
    assert Payloads(PageEvents(Pages(labels), channel)) == Pages(labels);
    if labels != [] {
      var n := |labels| - 1;
      LabelShape(resultID, n, results[n]);
      assert labels[n] != "";
    }
    PagesRoundTrip(labels);
  }

  /** The shared queue the worker answers on; it is only appended to. */
  class EventQueue {
    var events: seq<Event>

    constructor ()
      ensures events == []
    {
      events := [];
    }

    method Add(e: Event)
      modifies this
      ensures events == old(events) + [e]
    {
      events := events + [e];
    }
  }

  /** The database, seen as the sequence of storeBean calls made on it. */
  class BeanStore {
    var log: seq<StoredBean>

    constructor ()
      ensures log == []
    {
      log := [];
    }

    method StoreBean(b: StoredBean)
      modifies this
      ensures log == old(log) + [b]
    {
      log := log + [b];
    }
  }

  class ClusteringThread {
    const eventQueue: EventQueue
    var userID: int
    var kValue: int
    var groupName: string
    var channel: string

    /** The default worker: the admin test user, one cluster, the default
        group and an empty channel. */
    constructor Default(events: EventQueue)
      ensures eventQueue == events
      ensures userID == ADMIN_TEST_USER && kValue == SINGLE_CLUSTER
      ensures groupName == DEFAULT_NAME && channel == ""
    {
      eventQueue := events;
      userID := ADMIN_TEST_USER;
      kValue := SINGLE_CLUSTER;
      groupName := DEFAULT_NAME;
      channel := "";
    }

    constructor (events: EventQueue, userID: int, kValue: int, groupName: string, channel: string)
      ensures eventQueue == events
      ensures this.userID == userID && this.kValue == kValue
      ensures this.groupName == groupName && this.channel == channel
    {
      eventQueue := events;
      this.userID := userID;
      this.kValue := kValue;
      this.groupName := groupName;
      this.channel := channel;
    }

    /** One clustering run. `pointCount` is the number of active points loaded
        for the user and group, `centroids` the clusterer's output with every
        dimension already formatted, `sep` the coordinate separator,
        `resultStoreStatus` what storing the result bean returned and
        `newResultID` the user's latest result id read back afterwards. */
    method Run(store: BeanStore, pointCount: nat, centroids: seq<seq<string>>, sep: string,
               resultStoreStatus: int, newResultID: int)
      modifies eventQueue, store
      // too few points: one error event, nothing stored
      ensures kValue > pointCount ==>
        && eventQueue.events == old(eventQueue.events) + [Event(RESPONSE, [NOT_ENOUGH_POINTS], channel)]
        && store.log == old(store.log)
      // the result bean is stored first whenever clustering goes ahead
      ensures kValue <= pointCount ==>
        && |store.log| > |old(store.log)|
        && store.log[..|old(store.log)| + 1] == old(store.log) + [StoredResult(ClusterResultBean(
             userID, NEW_RESULT, groupName, kValue, pointCount, TRIAL_RUNS, MAX_ITERATIONS))]
      // the result bean was refused: one error event, no centroid stored
      ensures kValue <= pointCount && resultStoreStatus != SUCCESS ==>
        && eventQueue.events == old(eventQueue.events) + [Event(RESPONSE, [CLUSTERING_ERROR], channel)]
        && |store.log| == |old(store.log)| + 1
      // success: one bean per centroid label, then the labels in pages of four
      ensures kValue <= pointCount && resultStoreStatus == SUCCESS ==>
        var labels := Labels(newResultID, seq(|centroids|, i requires 0 <= i < |centroids| => Rendered(sep, centroids[i])));
        && store.log[|old(store.log)| + 1..] == CentroidBeans(userID, groupName, newResultID, labels)
        && eventQueue.events == old(eventQueue.events) + PageEvents(Pages(labels), channel)
      // every event sent answers this worker's channel
      ensures |eventQueue.events| > |old(eventQueue.events)|
      ensures eventQueue.events[..|old(eventQueue.events)|] == old(eventQueue.events)
      ensures forall i :: |old(eventQueue.events)| <= i < |eventQueue.events| ==>
        eventQueue.events[i].kind == RESPONSE && eventQueue.events[i].channel == channel
    {
      if kValue > pointCount {
        eventQueue.Add(Event(RESPONSE, [NOT_ENOUGH_POINTS], channel));
      } else {
        var clusters := kValue;
        var result := RenderAll(sep, centroids);
        assert result == seq(|centroids|, i requires 0 <= i < |centroids| => Rendered(sep, centroids[i]));
        var resultBean := ClusterResultBean(userID, NEW_RESULT, groupName, clusters, pointCount,
                                            TRIAL_RUNS, MAX_ITERATIONS);
        store.StoreBean(StoredResult(resultBean));
        ghost var afterResult := store.log;
        if resultStoreStatus == SUCCESS {
          var responseList := StoreCentroids(store, result, newResultID);
          assert store.log[..|old(store.log)| + 1] == afterResult;
          SendPages(responseList);
        } else {
          eventQueue.Add(Event(RESPONSE, [CLUSTERING_ERROR], channel));
        }
      }
    }

    /** Builds the label of every rendered centroid, in order, and stores a
        coordinate bean for each. */
    method StoreCentroids(store: BeanStore, result: seq<string>, newResultID: int)
      returns (responseList: seq<string>)
      modifies store
      ensures responseList == Labels(newResultID, result)
      ensures store.log == old(store.log) + CentroidBeans(userID, groupName, newResultID, responseList)
    {
      responseList := [];
      for index := 0 to |result|
        invariant responseList == Labels(newResultID, result[..index])
        invariant store.log == old(store.log) + CentroidBeans(userID, groupName, newResultID, responseList)
      {
        var current := result[index];
        var builder := "GPS:" + "R_" + IntToString(newResultID) + "_Cluster_" + NatToString(index) + current;
        responseList := responseList + [builder];
        store.StoreBean(StoredCoordinate(CoordinateBean(userID, builder, false, newResultID, groupName)));
      }
      assert result[..|result|] == result;
    }

    /** Sends the labels four at a time: at least one page, padded with "",
        then another page for as long as labels remain. */
    method SendPages(labels: seq<string>)
      modifies eventQueue
      ensures eventQueue.events == old(eventQueue.events) + PageEvents(Pages(labels), channel)
    {
      var responseList := labels;
      ghost var sent: seq<seq<string>> := [];
      var more := true;
      while more
        invariant more ==> sent + Pages(responseList) == Pages(labels)
        invariant !more ==> sent == Pages(labels) && responseList == []
        invariant eventQueue.events == old(eventQueue.events) + PageEvents(sent, channel)
        decreases if more then |responseList| + 1 else 0
      {
        var fourResults := new string[FOUR_RESULTS];
        ghost var start := responseList;
        for index := 0 to fourResults.Length
          invariant responseList == start[if index < |start| then index else |start|..]
          invariant forall j :: 0 <= j < index ==> fourResults[j] == FirstPage(start)[j]
          modifies fourResults
        {
          if responseList != [] {
            fourResults[index] := responseList[0];
            responseList := responseList[1..];
          } else {
            fourResults[index] := "";
          }
        }
        assert fourResults[..] == FirstPage(start);
        PagesStep(start, responseList);
        var displayClusters := Event(RESPONSE, fourResults[..], channel);
        eventQueue.Add(displayClusters);
        PageEventsAppend(sent, fourResults[..], channel);
        sent := sent + [fourResults[..]];
        more := responseList != [];
      }
    }
  }
}
