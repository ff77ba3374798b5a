/**
 * The portal's record shapes and closed enumerations. Optional interface fields
 * (`field?: T`) are `Option`s; every other field is always present.
 */
module Types {
  import opened Wrappers

  datatype EventCategory = Academic | Cultural | Sports | Tech | Social | Career

  datatype EventStatus = Upcoming | Past | Assumed

  /** Every category, in declaration order. */
  const AllCategories: seq<EventCategory> := [Academic, Cultural, Sports, Tech, Social, Career]

  /** Every status, in declaration order. */
  const AllStatuses: seq<EventStatus> := [Upcoming, Past, Assumed]

  /** The string each category member stands for (what an event card prints). */
  function CategoryValue(c: EventCategory): string {
    match c
    case Academic => "Academic"
    case Cultural => "Cultural"
    case Sports => "Sports"
    case Tech => "Tech"
    case Social => "Social"
    case Career => "Career"
  }

  /** The status string values. */
  function StatusValue(s: EventStatus): string {
    match s
    case Upcoming => "UPCOMING"
    case Past => "PAST"
    case Assumed => "ASSUMED"
  }

  /** The category enumeration has exactly six distinct members, each listed once. */
  lemma CategoriesClosed(c: EventCategory)
    ensures |AllCategories| == 6
    ensures c in AllCategories
    ensures forall i, j :: 0 <= i < j < |AllCategories| ==> AllCategories[i] != AllCategories[j]
  {
  }

  /** Different categories stand for different strings. */
  lemma CategoryValuesDistinct(c: EventCategory, d: EventCategory)
    ensures CategoryValue(c) == CategoryValue(d) ==> c == d
  {
    if c != d {
      var x, y := CategoryValue(c), CategoryValue(d);
      assert |x| != |y| || x[0] != y[0] || x[1] != y[1];
    }
  }

  /** The status enumeration has exactly three members, each listed once, which stand for different strings. */
  lemma StatusValuesDistinct(st: EventStatus, su: EventStatus)
    ensures |AllStatuses| == 3 && st in AllStatuses
    ensures forall i, j :: 0 <= i < j < |AllStatuses| ==> StatusValue(AllStatuses[i]) != StatusValue(AllStatuses[j])
    ensures StatusValue(st) == StatusValue(su) ==> st == su
  {
    if st != su {
      assert StatusValue(st)[0] != StatusValue(su)[0];
    }
  }

  /** A review left by a student; `rating` is a bare number with no range in the type. */
  datatype Review = Review(
    id: string,
    studentName: string,
    rating: int,
    comment: string,
    timestamp: string)

  /**
   * A campus event. `galleryImages`, `videoUrl`, `registrationLink`, `reviews` and
   * `isAiPredicted` are optional; the other nine fields are always present.
   */
  datatype Event = Event(
    id: string,
    title: string,
    description: string,
    date: string,
    location: string,
    organizer: string,
    category: EventCategory,
    status: EventStatus,
    imageUrl: string,
    galleryImages: Option<seq<string>>,
    videoUrl: Option<string>,
    registrationLink: Option<string>,
    reviews: Option<seq<Review>>,
    isAiPredicted: Option<bool>)

  /** A university of the catalog: five string fields. */
  datatype University = University(
    id: string,
    name: string,
    location: string,
    logoUrl: string,
    primaryColor: string)

  /** `event.status === EventStatus.PAST`, tested by the dashboard, the modal and the card alike. */
  predicate IsPast(e: Event) {
    e.status == Past
  }

  /** JavaScript truthiness of an optional boolean: only a present `true` counts. */
  predicate IsAiPredicted(e: Event) {
    e.isAiPredicted == Some(true)
  }

  /** The ids of a sequence of events, in order. */
  function EventIds(events: seq<Event>): (ids: seq<string>)
    ensures |ids| == |events|
    ensures forall i :: 0 <= i < |events| ==> ids[i] == events[i].id
  {
    seq(|events|, i requires 0 <= i < |events| => events[i].id)
  }

  /** No id occurs twice. */
  predicate Distinct(ids: seq<string>) {
    forall i, j :: 0 <= i < j < |ids| ==> ids[i] != ids[j]
  }
}
