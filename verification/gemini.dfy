/**
 * The AI service's deterministic side: turning the model's predictions into events, and
 * the fallback values that stand in when the model is absent, silent or failing.
 * The client itself is an input: `hasClient` says whether an API key was configured, a
 * `Call` is the outcome of one request, and JSON parsing is a function parameter.
 */
module GeminiService {
  import opened Wrappers
  import opened Types
  import opened Seqs

  /** One record of the model's JSON reply. */
  datatype Prediction = Prediction(title: string, description: string, date: string, category: EventCategory)

  const PredictedLocation := "To Be Announced"
  const PredictedOrganizer := "University Administration (Projected)"
  const IdPrefix := "ai_pred_"

  const NoSummary := "No AI summary available."
  const EmptySummary := "Could not generate summary."
  const SummaryFailed := "AI Summary unavailable."

  /** `ai_pred_${index}` */
  function PredictedId(i: nat): string {
    IdPrefix + NatToString(i)
  }

  /** `https://picsum.photos/seed/ai_pred_${index}/800/400` */
  function PredictedImageUrl(i: nat): string {
    "https://picsum.photos/seed/" + PredictedId(i) + "/800/400"
  }

  /** The event built from the `i`-th prediction. */
  function ToAssumedEvent(p: Prediction, i: nat): Event {
    Event(PredictedId(i), p.title, p.description, p.date, PredictedLocation, PredictedOrganizer,
      p.category, Assumed, PredictedImageUrl(i), None, None, None, None, Some(true))
  }

  /** `predictions.map((pred, index) => ({ … }))` */
  function ToAssumedEvents(preds: seq<Prediction>): (r: seq<Event>)
    ensures |r| == |preds|
    ensures forall i :: 0 <= i < |r| ==>
      r[i].id == PredictedId(i) && r[i].imageUrl == PredictedImageUrl(i) &&
      r[i].status == Assumed && IsAiPredicted(r[i]) &&
      r[i].location == PredictedLocation && r[i].organizer == PredictedOrganizer &&
      r[i].title == preds[i].title && r[i].description == preds[i].description &&
      r[i].date == preds[i].date && r[i].category == preds[i].category &&
      r[i].galleryImages.None? && r[i].videoUrl.None? && r[i].reviews.None? &&
      r[i].registrationLink.None?
  {
    seq(|preds|, i requires 0 <= i < |preds| => ToAssumedEvent(preds[i], i))
  }

  /** Generated ids all start with `ai_pred_` followed by decimal digits. */
  lemma PredictedIdShape(i: nat)
    ensures |PredictedId(i)| > |IdPrefix| && PredictedId(i)[..|IdPrefix|] == IdPrefix
    ensures PredictedId(i)[0] == 'a'
  {
    assert PredictedId(i)[..|IdPrefix|] == IdPrefix;
  }

  /** Different indexes give different ids. */
  lemma PredictedIdInjective(i: nat, j: nat)
    requires i != j
    ensures PredictedId(i) != PredictedId(j)
  {
    NatToStringInjective(i, j);
    assert PredictedId(i)[|IdPrefix|..] == NatToString(i);
    assert PredictedId(j)[|IdPrefix|..] == NatToString(j);
  }

  /** The ids within one batch are pairwise distinct. */
  lemma AssumedIdsDistinct(preds: seq<Prediction>)
    ensures Distinct(EventIds(ToAssumedEvents(preds)))
  {
    var ids := EventIds(ToAssumedEvents(preds));
    forall i, j | 0 <= i < j < |ids| ensures ids[i] != ids[j] {
      PredictedIdInjective(i, j);
    }
  }

  /**
   * `generateAssumedEvents`: no client, a thrown request, an absent or empty reply text, or a
   * parse that throws all give the empty list; otherwise the parsed predictions, mapped.
   */
  function GenerateAssumedEvents(hasClient: bool, reply: Call<Option<string>>,
                                 parse: string -> Call<seq<Prediction>>): (r: seq<Event>)
    ensures !hasClient || reply.Threw? ==> r == []
    ensures reply.Returned? && (reply.value == None || reply.value == Some("")) ==> r == []
    ensures hasClient && reply.Returned? && reply.value.Some? && reply.value.value != "" ==>
      (parse(reply.value.value).Threw? ==> r == []) &&
      (parse(reply.value.value).Returned? ==> r == ToAssumedEvents(parse(reply.value.value).value))
  {
    if !hasClient then []
    else match reply
      case Threw => []
      case Returned(text) =>
        if text.None? || text.value == "" then []
        else match parse(text.value)
          case Threw => []
          case Returned(preds) => ToAssumedEvents(preds)
  }

  /** Whatever the collaborator does, a batch is made only of predicted events with distinct ids. */
  lemma GeneratedBatchWellFormed(hasClient: bool, reply: Call<Option<string>>,
                                 parse: string -> Call<seq<Prediction>>)
    ensures var r := GenerateAssumedEvents(hasClient, reply, parse);
      Distinct(EventIds(r)) &&
      forall i :: 0 <= i < |r| ==> r[i].status == Assumed && IsAiPredicted(r[i]) && r[i].id == PredictedId(i)
  {
    if hasClient && reply.Returned? && reply.value.Some? && reply.value.value != "" {
      match parse(reply.value.value)
      case Threw =>
      case Returned(preds) => AssumedIdsDistinct(preds);
    }
  }

  function Comments(reviews: seq<Review>): (cs: seq<string>)
    ensures |cs| == |reviews|
    ensures forall i :: 0 <= i < |reviews| ==> cs[i] == reviews[i].comment
  {
    seq(|reviews|, i requires 0 <= i < |reviews| => reviews[i].comment)
  }

  /** `reviews.map(r => r.comment).join("\n")`: the text the summary request is built from. */
  function ReviewText(reviews: seq<Review>): string {
    Join(Comments(reviews), '\n')
  }

  /** When no comment holds a line break, the request text carries every comment, in order. */
  lemma ReviewTextRecoversComments(reviews: seq<Review>)
    requires |reviews| >= 1
    requires forall i :: 0 <= i < |reviews| ==> '\n' !in reviews[i].comment
    ensures Split(ReviewText(reviews), '\n') == Comments(reviews)
  {
    SplitJoin(Comments(reviews), '\n');
  }

  /**
   * `summarizeReviews`: the fixed fallbacks, or the model's reply text verbatim. `summarize`
   * is the model's outcome for a given review text.
   */
  function SummarizeReviews(hasClient: bool, reviews: seq<Review>,
                            summarize: string -> Call<Option<string>>): (r: string)
    ensures !hasClient || reviews == [] ==> r == NoSummary
    ensures hasClient && reviews != [] && summarize(ReviewText(reviews)).Threw? ==> r == SummaryFailed
    ensures hasClient && reviews != [] && summarize(ReviewText(reviews)) in {Returned(None), Returned(Some(""))} ==>
      r == EmptySummary
    ensures forall t :: hasClient && reviews != [] && t != "" && summarize(ReviewText(reviews)) == Returned(Some(t)) ==>
      r == t
    ensures r != ""
  {
    if !hasClient || |reviews| == 0 then NoSummary
    else match summarize(ReviewText(reviews))
      case Threw => SummaryFailed
      case Returned(text) => if text.None? || text.value == "" then EmptySummary else text.value
  }
}
