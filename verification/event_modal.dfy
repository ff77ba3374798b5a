/**
 * The event detail modal: which tabs and info-tab extras exist for an event, how review
 * stars are drawn, and the lazily fetched review summary.
 */
module EventDetail {
  import opened Wrappers
  import opened Types
  import opened GeminiService

  datatype ModalTab = InfoTab | GalleryTab | ReviewsTab

  /** `event.reviews && event.reviews.length > 0` */
  predicate HasReviews(e: Event) {
    e.reviews.Some? && |e.reviews.value| > 0
  }

  /** The effect's guard: a summary is fetched for a past event with reviews on the Reviews tab. */
  predicate SummaryFetchTriggered(e: Event, tab: ModalTab) {
    IsPast(e) && HasReviews(e) && tab == ReviewsTab
  }

  /** The effect runs again only when `activeTab` actually changes (the event is fixed). */
  predicate EffectFires(e: Event, before: ModalTab, after: ModalTab) {
    before != after && SummaryFetchTriggered(e, after)
  }

  /** "Register Now": on the info tab, for an event neither past nor predicted. */
  predicate RegisterShown(e: Event, tab: ModalTab) {
    tab == InfoTab && !IsPast(e) && !IsAiPredicted(e)
  }

  /** The "AI Predicted Event" notice: on the info tab, for a predicted event. */
  predicate PredictedNoticeShown(e: Event, tab: ModalTab) {
    tab == InfoTab && IsAiPredicted(e)
  }

  /** The "AI Sentiment Summary" block on the Reviews tab. */
  predicate SummaryBlockShown(e: Event, tab: ModalTab) {
    tab == ReviewsTab && HasReviews(e)
  }

  /** `event.galleryImages?.map(…) || <p>No images…</p>`: an empty array is truthy. */
  predicate GalleryEmptyMessageShown(e: Event, tab: ModalTab) {
    tab == GalleryTab && e.galleryImages.None?
  }

  /** The gallery images drawn. */
  function GalleryItems(e: Event, tab: ModalTab): seq<string> {
    if tab == GalleryTab && e.galleryImages.Some? then e.galleryImages.value else []
  }

  /** `event.reviews?.map(…) || <p>No reviews yet.</p>` */
  predicate ReviewsEmptyMessageShown(e: Event, tab: ModalTab) {
    tab == ReviewsTab && e.reviews.None?
  }

  /** The review cards drawn. */
  function ReviewItems(e: Event, tab: ModalTab): seq<Review> {
    if tab == ReviewsTab && e.reviews.Some? then e.reviews.value else []
  }

  /** An empty-state message appears only for an absent field; an empty array shows nothing at all. */
  lemma EmptyStates(e: Event)
    ensures GalleryEmptyMessageShown(e, GalleryTab) <==> e.galleryImages.None?
    ensures ReviewsEmptyMessageShown(e, ReviewsTab) <==> e.reviews.None?
    ensures e.galleryImages == Some([]) ==>
      GalleryItems(e, GalleryTab) == [] && !GalleryEmptyMessageShown(e, GalleryTab)
    ensures SummaryBlockShown(e, ReviewsTab) <==> e.reviews.Some? && e.reviews.value != []
    ensures e.reviews == Some([]) ==>
      ReviewItems(e, ReviewsTab) == [] && !ReviewsEmptyMessageShown(e, ReviewsTab) &&
      !SummaryBlockShown(e, ReviewsTab)
  {
  }

  /** The info tab shows at most one extra, and which one follows the event's kind. */
  lemma InfoTabExtras(e: Event)
    ensures !(RegisterShown(e, InfoTab) && PredictedNoticeShown(e, InfoTab))
    ensures (e.status == Assumed <==> IsAiPredicted(e)) ==>
      (RegisterShown(e, InfoTab) <==> e.status == Upcoming) &&
      (PredictedNoticeShown(e, InfoTab) <==> e.status == Assumed)
    ensures IsPast(e) && !IsAiPredicted(e) ==>
      !RegisterShown(e, InfoTab) && !PredictedNoticeShown(e, InfoTab)
  {
  }

  /** The five stars of one review, left to right: `i < review.rating` fills star `i`. */
  function StarRow(n: nat, rating: int): (r: seq<bool>)
    ensures |r| == n
    decreases n
  {
    if n == 0 then [] else StarRow(n - 1, rating) + [n - 1 < rating]
  }

  const StarCount := 5

  function Stars(rating: int): seq<bool> {
    StarRow(StarCount, rating)
  }

  function CountFilled(stars: seq<bool>): nat
    decreases |stars|
  {
    if stars == [] then 0
    else CountFilled(stars[..|stars| - 1]) + (if stars[|stars| - 1] then 1 else 0)
  }

  /** `rating` clamped to `0..n`. */
  function Clamp(rating: int, n: nat): nat {
    if rating <= 0 then 0 else if rating >= n then n else rating
  }

  lemma {:induction false} StarRowAt(n: nat, rating: int, i: nat)
    requires i < n
    ensures StarRow(n, rating)[i] <==> i < rating
    decreases n
  {
    if i < n - 1 {
      StarRowAt(n - 1, rating, i);
    }
  }

  lemma {:induction false} StarRowCount(n: nat, rating: int)
    ensures CountFilled(StarRow(n, rating)) == Clamp(rating, n)
    decreases n
  {
    if n > 0 {
      StarRowCount(n - 1, rating);
      assert StarRow(n, rating)[..n - 1] == StarRow(n - 1, rating);
    }
  }

  /**
   * Exactly five stars are drawn, star `i` is filled iff `i < rating`, so the filled stars
   * are a prefix whose length is the rating clamped to 0..5.
   */
  lemma StarsRule(rating: int)
    ensures |Stars(rating)| == 5
    ensures forall i :: 0 <= i < 5 ==> (Stars(rating)[i] <==> i < rating)
    ensures CountFilled(Stars(rating)) == Clamp(rating, 5)
    ensures 1 <= rating <= 5 ==> CountFilled(Stars(rating)) == rating
  {
    forall i | 0 <= i < 5 ensures Stars(rating)[i] <==> i < rating {
      StarRowAt(StarCount, rating, i);
    }
    StarRowCount(StarCount, rating);
  }

  /** The modal's three state cells, for the one event it was opened on. */
  class EventModal {
    const event: Event
    var activeTab: ModalTab
    var summary: string
    var loadingSummary: bool
    /** Summary requests issued whose replies have not arrived yet. */
    ghost var pending: nat

    /**
     * A non-past event never leaves the info tab; requests exist only for past events with
     * reviews; the loading flag is up only while a request is out.
     */
    ghost predicate Valid()
      reads this
    {
      (!IsPast(event) ==> activeTab == InfoTab) &&
      (pending > 0 ==> IsPast(event) && HasReviews(event)) &&
      (loadingSummary ==> pending > 0)
    }

    constructor (e: Event)
      ensures Valid()
      ensures event == e && activeTab == InfoTab && summary == "" && !loadingSummary && pending == 0
    {
      event := e;
      activeTab := InfoTab;
      summary := "";
      loadingSummary := false;
      pending := 0;
    }

    /**
     * A tab button, followed by the effect: if the tab changed to Reviews on a past event with
     * reviews, a summary request goes out and the loading flag is raised.
     */
    method SelectTab(t: ModalTab) returns (requested: bool)
      requires Valid() && IsPast(event)  // the Overview/Gallery/Reviews buttons exist for past events only
      modifies this
      ensures Valid()
      ensures activeTab == t
      ensures requested == EffectFires(event, old(activeTab), t)
      ensures requested ==> loadingSummary && pending == old(pending) + 1
      ensures !requested ==> loadingSummary == old(loadingSummary) && pending == old(pending)
      ensures summary == old(summary)
    {
      requested := t != activeTab && SummaryFetchTriggered(event, t);
      activeTab := t;
      if requested {
        loadingSummary := true;
        pending := pending + 1;
      }
    }

    /** A summary reply arrives: its text (or the service's fallback) is stored and loading ends. */
    method ReceiveSummary(hasClient: bool, summarize: string -> Call<Option<string>>)
      requires Valid() && pending > 0
      modifies this
      ensures Valid()
      ensures summary == SummarizeReviews(hasClient, event.reviews.value, summarize) && summary != ""
      ensures !loadingSummary && pending == old(pending) - 1
      ensures activeTab == old(activeTab)
    {
      summary := SummarizeReviews(hasClient, event.reviews.value, summarize);
      loadingSummary := false;
      pending := pending - 1;
    }
  }

  /** The effect never fires for an event that is not past, whatever the tab change. */
  lemma NoFetchUnlessPast(e: Event, before: ModalTab, after: ModalTab)
    requires !IsPast(e)
    ensures !EffectFires(e, before, after)
  {
  }
}
