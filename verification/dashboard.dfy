/**
 * The dashboard: the working event list (seed events, then at most one appended batch of
 * predictions), the Upcoming/Past tab, the open event and the prediction flags.
 */
module DashboardView {
  import opened Wrappers
  import opened Types
  import opened Seqs
  import opened Constants
  import opened GeminiService
  import EventDetail

  datatype Tab = UpcomingTab | PastTab

  /** `e.status === UPCOMING || e.status === ASSUMED` */
  predicate InUpcomingView(e: Event) {
    e.status == Upcoming || e.status == Assumed
  }

  function UpcomingEvents(events: seq<Event>): seq<Event> {
    Filter(events, InUpcomingView)
  }

  function PastEvents(events: seq<Event>): seq<Event> {
    Filter(events, IsPast)
  }

  /**
   * The two views keep the list's order, are disjoint, and between them hold every event
   * exactly as often as the list does.
   */
  lemma ViewsPartition(events: seq<Event>)
    ensures IsSubsequence(UpcomingEvents(events), events) && IsSubsequence(PastEvents(events), events)
    ensures multiset(UpcomingEvents(events)) + multiset(PastEvents(events)) == multiset(events)
    ensures |UpcomingEvents(events)| + |PastEvents(events)| == |events|
    ensures forall e :: e in events <==> (e in UpcomingEvents(events) || e in PastEvents(events))
    ensures forall e :: !(e in UpcomingEvents(events) && e in PastEvents(events))
  {
    FilterIsSubsequence(events, InUpcomingView);
    FilterIsSubsequence(events, IsPast);
    FilterPartition(events, InUpcomingView, IsPast);
    var up, past := UpcomingEvents(events), PastEvents(events);
    assert |multiset(up)| + |multiset(past)| == |multiset(events)|;
    forall e | e in events ensures e in up || e in past {
      assert e in multiset(events);
    }
  }

  /** Appending predicted events leaves the Past view alone and extends the Upcoming view by exactly them. */
  lemma ViewsAfterAppend(events: seq<Event>, batch: seq<Event>)
    requires forall i :: 0 <= i < |batch| ==> batch[i].status == Assumed
    ensures UpcomingEvents(events + batch) == UpcomingEvents(events) + batch
    ensures PastEvents(events + batch) == PastEvents(events)
  {
    FilterAppend(events, batch, InUpcomingView);
    FilterAppend(events, batch, IsPast);
    FilterAll(batch, InUpcomingView);
    FilterNone(batch, IsPast);
    assert PastEvents(events) + [] == PastEvents(events);
  }

  /** A list of upcoming events followed by past ones splits at the boundary. */
  lemma {:induction false} ViewsOfSortedList(front: seq<Event>, back: seq<Event>)
    requires forall i :: 0 <= i < |front| ==> front[i].status == Upcoming
    requires forall i :: 0 <= i < |back| ==> back[i].status == Past
    ensures UpcomingEvents(front + back) == front
    ensures PastEvents(front + back) == back
  {
    FilterAppend(front, back, InUpcomingView);
    FilterAppend(front, back, IsPast);
    FilterAll(front, InUpcomingView);
    FilterNone(back, InUpcomingView);
    FilterNone(front, IsPast);
    FilterAll(back, IsPast);
    assert front + [] == front;
  }

  /** On the seed list, Upcoming shows the first three events and Past the last three. */
  lemma SeedViews()
    ensures UpcomingEvents(MockEvents) == MockEvents[..3]
    ensures PastEvents(MockEvents) == MockEvents[3..]
  {
    SeedLayout();
    ViewsOfSortedList(MockEvents[..3], MockEvents[3..]);
    assert MockEvents[..3] + MockEvents[3..] == MockEvents;
  }

  /** Seed ids start with `e`, predicted ones with `a`: a batch never collides with the seed list. */
  lemma WorkingIdsDistinct(batch: seq<Event>)
    requires Distinct(EventIds(batch))
    requires forall i :: 0 <= i < |batch| ==> batch[i].id == PredictedId(i)
    ensures Distinct(EventIds(MockEvents + batch))
  {
    SeedLayout();
    var all := MockEvents + batch;
    var ids := EventIds(all);
    forall i, j | 0 <= i < j < |ids| ensures ids[i] != ids[j] {
      if j >= SeedCount {
        PredictedIdShape(j - SeedCount);
        if i >= SeedCount {
          assert ids[i] == EventIds(batch)[i - SeedCount];
          assert ids[j] == EventIds(batch)[j - SeedCount];
        } else {
          assert ids[i] == EventIds(MockEvents)[i];
          assert ids[i][0] == 'e';
        }
      } else {
        assert ids[i] == EventIds(MockEvents)[i] && ids[j] == EventIds(MockEvents)[j];
      }
    }
  }

  /** The state cells of the dashboard component. */
  class Dashboard {
    var activeTab: Tab
    var selectedEvent: Option<Event>
    var events: seq<Event>
    var predicting: bool
    var hasPredicted: bool

    /**
     * The seed list is an unchanged prefix; anything after it is a predicted event; nothing
     * is appended before a prediction completes; every event is ASSUMED exactly when it is
     * flagged as predicted; ids are distinct; the open event is listed.
     */
    ghost predicate Valid()
      reads this
    {
      !(predicting && hasPredicted) &&
      |events| >= SeedCount && events[..SeedCount] == MockEvents &&
      (!hasPredicted ==> events == MockEvents) &&
      (forall i :: SeedCount <= i < |events| ==> events[i].status == Assumed && IsAiPredicted(events[i])) &&
      (forall i :: 0 <= i < |events| ==> (events[i].status == Assumed <==> IsAiPredicted(events[i]))) &&
      Distinct(EventIds(events)) &&
      (selectedEvent.Some? ==> selectedEvent.value in events)
    }

    /** The cards rendered under the active tab. */
    function VisibleEvents(): seq<Event>
      reads this
    {
      if activeTab == UpcomingTab then UpcomingEvents(events) else PastEvents(events)
    }

    /** `{!hasPredicted && …}` inside the Upcoming tab. */
    function PredictButtonShown(): bool
      reads this
    {
      activeTab == UpcomingTab && !hasPredicted
    }

    /** `disabled={predicting}` */
    function PredictButtonEnabled(): bool
      reads this
    {
      PredictButtonShown() && !predicting
    }

    /** `{selectedEvent && <EventModal …/>}` */
    function ModalShown(): bool
      reads this
    {
      selectedEvent.Some?
    }

    constructor ()
      ensures Valid()
      ensures activeTab == UpcomingTab && selectedEvent == None && events == MockEvents
      ensures !predicting && !hasPredicted && PredictButtonEnabled() && !ModalShown()
    {
      activeTab := UpcomingTab;
      selectedEvent := None;
      events := MockEvents;
      predicting := false;
      hasPredicted := false;
      SeedLayout();
      SeedNotPredicted();
    }

    /** A tab button: only the tab changes. */
    method SetTab(t: Tab)
      requires Valid()
      modifies this
      ensures Valid()
      ensures activeTab == t
      ensures events == old(events) && selectedEvent == old(selectedEvent)
      ensures predicting == old(predicting) && hasPredicted == old(hasPredicted)
    {
      activeTab := t;
    }

    /** Clicking a rendered card opens it; the list is untouched. */
    method SelectEvent(e: Event)
      requires Valid() && e in VisibleEvents()
      modifies this
      ensures Valid()
      ensures selectedEvent == Some(e) && ModalShown()
      ensures e.status == Assumed <==> IsAiPredicted(e)
      ensures events == old(events) && activeTab == old(activeTab)
      ensures predicting == old(predicting) && hasPredicted == old(hasPredicted)
    {
      selectedEvent := Some(e);
    }

    /** The modal's `onClose`. */
    method CloseModal()
      requires Valid() && ModalShown()
      modifies this
      ensures Valid()
      ensures selectedEvent == None && !ModalShown()
      ensures events == old(events) && activeTab == old(activeTab)
      ensures predicting == old(predicting) && hasPredicted == old(hasPredicted)
    {
      selectedEvent := None;
    }

    /** `handlePredictEvents` up to its `await`: the request is issued. */
    method BeginPrediction()
      requires Valid() && PredictButtonEnabled()
      modifies this
      ensures Valid()
      ensures predicting && !PredictButtonEnabled()
      ensures events == old(events) && activeTab == old(activeTab) && selectedEvent == old(selectedEvent)
      ensures hasPredicted == old(hasPredicted)
    {
      predicting := true;
    }

    /**
     * `handlePredictEvents` after its `await`: the batch is appended, the flags record that
     * the single prediction is done, even when the batch is empty.
     */
    method CompletePrediction(hasClient: bool, reply: Call<Option<string>>,
                              parse: string -> Call<seq<Prediction>>) returns (batch: seq<Event>)
      requires Valid() && predicting
      modifies this
      ensures Valid()
      ensures batch == GenerateAssumedEvents(hasClient, reply, parse)
      ensures events == old(events) + batch && old(events) == MockEvents
      ensures !predicting && hasPredicted && !PredictButtonShown()
      ensures activeTab == old(activeTab) && selectedEvent == old(selectedEvent)
    {
      batch := GenerateAssumedEvents(hasClient, reply, parse);
      GeneratedBatchWellFormed(hasClient, reply, parse);
      WorkingIdsDistinct(batch);
      SeedNotPredicted();
      events := events + batch;
      predicting := false;
      hasPredicted := true;
      assert events[..SeedCount] == MockEvents;
    }
  }

  /**
   * Whatever card the dashboard has open, its info tab offers Register exactly for an
   * UPCOMING event and the predicted notice exactly for an ASSUMED one.
   */
  lemma OpenEventExtras(d: Dashboard)
    requires d.Valid() && d.ModalShown()
    ensures d.selectedEvent.value.status == Assumed <==> IsAiPredicted(d.selectedEvent.value)
    ensures EventDetail.RegisterShown(d.selectedEvent.value, EventDetail.InfoTab) <==>
      d.selectedEvent.value.status == Upcoming
    ensures EventDetail.PredictedNoticeShown(d.selectedEvent.value, EventDetail.InfoTab) <==>
      d.selectedEvent.value.status == Assumed
  {
    var e := d.selectedEvent.value;
    var i :| 0 <= i < |d.events| && d.events[i] == e;
    EventDetail.InfoTabExtras(e);
  }
}
