/** The two producers of docker_handler.go that feed the registry: the event
    listener (`listenToDockerEvents`), which turns container start and die
    events into one-id batches, and the inventory listing
    (`listDockerContainers`), which sends the ids of the opted-in running
    containers as one add batch. */
module Events {
  import opened Wrappers
  import opened Resolver
  import Utils

  const EventTypeContainer := "container"
  const EventActionStart := "start"
  const EventActionDie := "die"

  /** A Docker event: its type, its action and the id of the object it is about. */
  datatype Event = Event(kind: string, action: string, id: string)

  /** A batch of container ids, sent on the start channel or on the stop channel. */
  datatype Batch = Start(ids: seq<string>) | Stop(ids: seq<string>)

  /** The classification at the heart of `listenToDockerEvents`. */
  function Classify(e: Event): (b: Option<Batch>)
    ensures b == Some(Start([e.id])) <==> e.kind == EventTypeContainer && e.action == EventActionStart
    ensures b == Some(Stop([e.id])) <==> e.kind == EventTypeContainer && e.action == EventActionDie
    ensures b == None <==> e.kind != EventTypeContainer || (e.action != EventActionStart && e.action != EventActionDie)
  {
    if e.kind == EventTypeContainer && e.action == EventActionStart then Some(Start([e.id]))
    else if e.kind == EventTypeContainer && e.action == EventActionDie then Some(Stop([e.id]))
    else None
  }

  /** The batches the listener sends for a stream of events, in order. */
  function EventBatches(events: seq<Event>): seq<Batch>
  {
    if events == [] then []
    else
      var init := EventBatches(events[..|events| - 1]);
      match Classify(events[|events| - 1])
      case Some(b) => init + [b]
      case None => init
  }

  /** `listenToDockerEvents` over the events it receives (the context and the
      error channel aside): one send per start or die event. */
  method ListenToDockerEvents(events: seq<Event>) returns (sent: seq<Batch>)
    ensures sent == EventBatches(events)
  {
    sent := [];
    var i := 0;
    while i < |events|
      invariant 0 <= i <= |events|
      invariant sent == EventBatches(events[..i])
    {
      var event := events[i];
      if event.kind == EventTypeContainer && event.action == EventActionStart {
        sent := sent + [Start([event.id])];
      } else if event.kind == EventTypeContainer && event.action == EventActionDie {
        sent := sent + [Stop([event.id])];
      }
      assert events[..i + 1][..i] == events[..i];
      i := i + 1;
    }
    assert events[..i] == events;
  }

  /** Every batch the listener sends carries exactly one id, taken from a
      container start or die event; the others are dropped. */
  lemma {:induction false} EventBatchesShape(events: seq<Event>)
    ensures |EventBatches(events)| <= |events|
    ensures forall b :: b in EventBatches(events) ==>
      exists e :: e in events && e.kind == EventTypeContainer && Classify(e) == Some(b) && b.ids == [e.id]
  {
    if events != [] {
      var init := events[..|events| - 1];
      EventBatchesShape(init);
      forall b | b in EventBatches(events)
        ensures exists e :: e in events && e.kind == EventTypeContainer && Classify(e) == Some(b) && b.ids == [e.id]
      {
        if b in EventBatches(init) {
          var e :| e in init && e.kind == EventTypeContainer && Classify(e) == Some(b) && b.ids == [e.id];
          assert e in events;
        } else {
          assert Classify(events[|events| - 1]) == Some(b);
        }
      }
    }
  }

  /** The listener handles a stream piecewise: the batches for two streams
      in a row are those of the first followed by those of the second. */
  lemma {:induction false} EventBatchesAppend(a: seq<Event>, b: seq<Event>)
    ensures EventBatches(a + b) == EventBatches(a) + EventBatches(b)
    decreases |b|
  {
    if b == [] {
      assert a + b == a;
    } else {
      var n := |b|;
      assert (a + b)[..|a + b| - 1] == a + b[..n - 1];
      assert (a + b)[|a + b| - 1] == b[n - 1];
      EventBatchesAppend(a, b[..n - 1]);
      match Classify(b[n - 1])
      case Some(x) =>
        assert EventBatches(a) + EventBatches(b[..n - 1]) + [x] == EventBatches(a) + (EventBatches(b[..n - 1]) + [x]);
      case None =>
    }
  }

  /** Each container start or die event yields its own batch, sent after the
      batches of the events before it and before those of the events after it. */
  lemma EventYieldsBatch(before: seq<Event>, e: Event, after: seq<Event>)
    requires e.kind == EventTypeContainer
    requires e.action == EventActionStart || e.action == EventActionDie
    ensures EventBatches(before + [e] + after) ==
      EventBatches(before) +
      [if e.action == EventActionStart then Start([e.id]) else Stop([e.id])] +
      EventBatches(after)
  {
    assert before + [e] + after == before + ([e] + after);
    EventBatchesAppend(before, [e] + after);
    EventBatchesAppend([e], after);
    EventBatchesOne(e);
  }

  /** The batches for a single event are its classification, if any. */
  lemma EventBatchesOne(e: Event)
    ensures EventBatches([e]) == if Classify(e).Some? then [Classify(e).value] else []
  {
    assert [e][..0] == [];
  }

  /** A summary from the container listing: the id and the labels. */
  datatype Summary = Summary(id: string, labels: map<string, string>)

  /** The result of `ContainerList`: the running containers, or an error. */
  datatype Listing = ListFailed | Listed(containers: seq<Summary>)

  /** The ids of the opted-in containers of a listing, in listing order. */
  function ManagedIds(containers: seq<Summary>): seq<string>
  {
    if containers == [] then []
    else
      var last := containers[|containers| - 1];
      ManagedIds(containers[..|containers| - 1]) + (if ContainerIsManaged(last.labels) then [last.id] else [])
  }

  /** `listDockerContainers`, given what listing the running containers
      returned: nothing on an error or when no container is managed,
      otherwise one add batch of the managed ids. */
  method ListDockerContainers(listing: Listing) returns (sent: Option<Batch>)
    ensures listing.ListFailed? ==> sent == None
    ensures listing.Listed? ==>
      sent == if ManagedIds(listing.containers) == [] then None else Some(Start(ManagedIds(listing.containers)))
  {
    if listing.ListFailed? {
      return None;
    }
    var containers := listing.containers;
    var containerIds := [];
    var i := 0;
    while i < |containers|
      invariant 0 <= i <= |containers|
      invariant containerIds == ManagedIds(containers[..i])
    {
      var c := containers[i];
      if ContainerIsManaged(c.labels) {
        containerIds := containerIds + [c.id];
      }
      assert containers[..i + 1][..i] == containers[..i];
      i := i + 1;
    }
    assert containers[..i] == containers;
    if |containerIds| > 0 {
      sent := Some(Start(containerIds));
    } else {
      sent := None;
    }
  }

  /** An id is sent by the listing exactly when some listed container with
      that id carries the opt-in label. */
  lemma {:induction false} ManagedIdsMembers(containers: seq<Summary>, id: string)
    ensures id in ManagedIds(containers) <==>
      exists i :: 0 <= i < |containers| && containers[i].id == id && ContainerIsManaged(containers[i].labels)
  {
    if containers != [] {
      var n := |containers|;
      var init := containers[..n - 1];
      ManagedIdsMembers(init, id);
      if id in ManagedIds(containers) && id !in ManagedIds(init) {
        assert containers[n - 1].id == id && ContainerIsManaged(containers[n - 1].labels);
      }
      if exists i :: 0 <= i < n && containers[i].id == id && ContainerIsManaged(containers[i].labels) {
        var i :| 0 <= i < n && containers[i].id == id && ContainerIsManaged(containers[i].labels);
        if i < n - 1 {
          assert init[i] == containers[i];
        }
      }
    }
  }

  /** The listing keeps the listed order: filtering distributes over concatenation. */
  lemma {:induction false} ManagedIdsAppend(xs: seq<Summary>, ys: seq<Summary>)
    ensures ManagedIds(xs + ys) == ManagedIds(xs) + ManagedIds(ys)
    decreases |ys|
  {
    if ys != [] {
      var n := |ys|;
      assert (xs + ys)[..|xs + ys| - 1] == xs + ys[..n - 1];
      assert (xs + ys)[|xs + ys| - 1] == ys[n - 1];
      ManagedIdsAppend(xs, ys[..n - 1]);
    } else {
      assert xs + ys == xs;
    }
  }
}
