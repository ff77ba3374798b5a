/** The event card: decorations and the one call-to-action chosen by the event's status. */
module EventCardView {
  import opened Types
  import DashboardView

  /** What the card renders besides the event's own fields. */
  datatype CardDecor = CardDecor(
    predictedBadge: bool,          // "Predicted" pill
    dashedBorder: bool,            // dashed purple styling
    greyscaleImage: bool,          // `grayscale-[30%]` on the image
    detailsAndRegister: bool,      // "Details & Register"
    viewGalleryAndReviews: bool)   // "View Gallery & Reviews"

  /** Computed from `isPast` and `isAssumed` as the card does. */
  function Decorate(e: Event): (d: CardDecor)
    ensures d.predictedBadge <==> e.status == Assumed
    ensures d.dashedBorder <==> e.status == Assumed
    ensures d.greyscaleImage <==> e.status == Past
    ensures d.detailsAndRegister <==> e.status == Upcoming
    ensures d.viewGalleryAndReviews <==> e.status == Past
  {
    var isPast := IsPast(e);
    var isAssumed := e.status == Assumed;
    CardDecor(isAssumed, isAssumed, isPast, !isPast && !isAssumed, isPast)
  }

  /** The two calls-to-action never appear together; a predicted card has neither, only its badge. */
  lemma AffordancesExclusive(e: Event)
    ensures !(Decorate(e).detailsAndRegister && Decorate(e).viewGalleryAndReviews)
    ensures e.status == Assumed ==>
      !Decorate(e).detailsAndRegister && !Decorate(e).viewGalleryAndReviews && Decorate(e).predictedBadge
    ensures Decorate(e).predictedBadge || Decorate(e).detailsAndRegister || Decorate(e).viewGalleryAndReviews
  {
  }

  /**
   * Under the Upcoming tab no card is greyed or offers the gallery; under the Past tab every
   * card does, and none is badged as predicted.
   */
  lemma CardsPerTab(events: seq<Event>)
    ensures forall i :: 0 <= i < |DashboardView.UpcomingEvents(events)| ==>
      var d := Decorate(DashboardView.UpcomingEvents(events)[i]);
      !d.viewGalleryAndReviews && !d.greyscaleImage && (d.detailsAndRegister != d.predictedBadge)
    ensures forall i :: 0 <= i < |DashboardView.PastEvents(events)| ==>
      var d := Decorate(DashboardView.PastEvents(events)[i]);
      d.viewGalleryAndReviews && d.greyscaleImage && !d.predictedBadge && !d.detailsAndRegister
  {
  }
}
