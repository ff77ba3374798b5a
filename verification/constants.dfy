/** The fixed university catalog and the seed list of events the dashboard starts from. */
module Constants {
  import opened Wrappers
  import opened Types

  const Universities: seq<University> := [
    University("uni_1", "Metropolis Institute of Technology", "New York, NY",
      "https://picsum.photos/seed/mit_logo/100/100", "bg-blue-600"),
    University("uni_2", "Greenwood State University", "Austin, TX",
      "https://picsum.photos/seed/gsu_logo/100/100", "bg-green-600"),
    University("uni_3", "Royal Academy of Arts", "London, UK",
      "https://picsum.photos/seed/raa_logo/100/100", "bg-purple-600"),
    University("uni_4", "Amrapali University", "Haldwani, Uttarakhand",
      "https://picsum.photos/seed/amrapali/100/100", "bg-orange-600")
  ]

  const HackathonEvent := Event(
    "evt_u1", "Spring Hackathon 2025",
    "A 24-hour coding marathon to solve campus problems. Teams of 4 allowed. Food and swag provided.",
    "2025-04-15", "Engineering Block B, Hall 3", "Computer Science Society", Tech, Upcoming,
    "https://picsum.photos/seed/hackathon/800/400",
    None, None, Some("https://docs.google.com/forms/d/e/1FAIpQLSd_mock_form"), None, Some(false))

  const FootballEvent := Event(
    "evt_u2", "Inter-Department Football Finals",
    "The final showdown between Mechanical Engineering and Business School. Come cheer for your team!",
    "2025-04-20", "Main Stadium", "Sports Committee", Sports, Upcoming,
    "https://picsum.photos/seed/football/800/400",
    None, None, Some("https://docs.google.com/forms/d/e/1FAIpQLSd_mock_form_sports"), None, Some(false))

  const CareerFairEvent := Event(
    "evt_u3", "Career Fair: Summer Internships",
    "Meet recruiters from top tech and finance companies. Bring your resume.",
    "2025-05-01", "University Auditorium", "Placement Cell", Career, Upcoming,
    "https://picsum.photos/seed/career/800/400",
    None, None, Some("https://docs.google.com/forms/d/e/1FAIpQLSd_mock_form_career"), None, Some(false))

  const CulturalFestEvent := Event(
    "evt_p1", "Annual Cultural Fest \"Aura 2024\"",
    "A 3-day extravaganza of dance, music, and art. The biggest event of the year featuring guest bands and student performances.",
    "2024-11-10", "Open Air Theatre", "Student Council", Cultural, Past,
    "https://picsum.photos/seed/concert/800/400",
    Some([
      "https://picsum.photos/seed/concert1/400/300",
      "https://picsum.photos/seed/concert2/400/300",
      "https://picsum.photos/seed/concert3/400/300",
      "https://picsum.photos/seed/concert4/400/300"]),
    None, None,
    Some([
      Review("r1", "Alex D.", 5, "Absolutely insane energy! The band was amazing.", "2024-11-12"),
      Review("r2", "Sarah M.", 4, "Great performances, but food stalls were too crowded.", "2024-11-13"),
      Review("r3", "Priya K.", 5, "Best fest in my 3 years here.", "2024-11-12")]),
    Some(false))

  const RoboticsEvent := Event(
    "evt_p2", "Robotics Workshop: Basics of Arduino",
    "A hands-on workshop for beginners to learn electronics and coding.",
    "2024-10-05", "Lab 204", "Robotics Club", Tech, Past,
    "https://picsum.photos/seed/robotics/800/400",
    Some([
      "https://picsum.photos/seed/robo1/400/300",
      "https://picsum.photos/seed/robo2/400/300"]),
    None, None,
    Some([
      Review("r4", "John T.", 3, "Good content, but the kits were limited.", "2024-10-06"),
      Review("r5", "Emily R.", 5, "Learned so much in just 4 hours.", "2024-10-06")]),
    Some(false))

  const LectureEvent := Event(
    "evt_p3", "Guest Lecture: Future of AI",
    "Dr. Alan Grant discussed the implications of generative AI in modern software engineering.",
    "2024-09-15", "Seminar Hall A", "CS Dept", Academic, Past,
    "https://picsum.photos/seed/lecture/800/400",
    Some([
      "https://picsum.photos/seed/lecture1/400/300",
      "https://picsum.photos/seed/lecture2/400/300"]),
    None, None,
    Some([
      Review("r6", "Mike L.", 4, "Very insightful, tough technically heavy.", "2024-09-15")]),
    Some(false))

  /** The seed list: three upcoming events followed by three past ones. */
  const MockEvents: seq<Event> := [
    HackathonEvent, FootballEvent, CareerFairEvent,
    CulturalFestEvent, RoboticsEvent, LectureEvent
  ]

  /** The number of seed events, which prefix the dashboard's working list. */
  const SeedCount := 6

  /** Every review attached to a seed event, in list order. */
  function SeedReviews(): seq<Review> {
    CulturalFestEvent.reviews.value + RoboticsEvent.reviews.value + LectureEvent.reviews.value
  }

  /** The catalog holds four universities whose ids are `uni_1` to `uni_4`. */
  lemma UniversityCatalog()
    ensures |Universities| == 4
    ensures CatalogIds() == ["uni_1", "uni_2", "uni_3", "uni_4"]
    ensures Distinct(CatalogIds())
  {
    var ids := CatalogIds();
    assert ids[0][4] == '1' && ids[1][4] == '2' && ids[2][4] == '3' && ids[3][4] == '4';
  }

  /** The ids of the university catalog, in catalog order. */
  function CatalogIds(): (ids: seq<string>)
    ensures |ids| == |Universities|
  {
    seq(|Universities|, i requires 0 <= i < |Universities| => Universities[i].id)
  }

  /**
   * The seed list has six events with distinct ids: `evt_u1` to `evt_u3`, all UPCOMING,
   * then `evt_p1` to `evt_p3`, all PAST.
   */
  lemma SeedLayout()
    ensures |MockEvents| == SeedCount
    ensures EventIds(MockEvents) == ["evt_u1", "evt_u2", "evt_u3", "evt_p1", "evt_p2", "evt_p3"]
    ensures Distinct(EventIds(MockEvents))
    ensures forall i :: 0 <= i < 3 ==> MockEvents[i].status == Upcoming
    ensures forall i :: 3 <= i < SeedCount ==> MockEvents[i].status == Past
  {
    var ids := EventIds(MockEvents);
    assert ids == ["evt_u1", "evt_u2", "evt_u3", "evt_p1", "evt_p2", "evt_p3"];
    forall i, j | 0 <= i < j < |ids| ensures ids[i] != ids[j] {
      assert ids[i][4] != ids[j][4] || ids[i][5] != ids[j][5];
    }
  }

  /** No seed event is AI-predicted: `isAiPredicted` is a present `false` and no status is ASSUMED. */
  lemma SeedNotPredicted()
    ensures forall i :: 0 <= i < |MockEvents| ==>
      MockEvents[i].isAiPredicted == Some(false) && MockEvents[i].status != Assumed
  {
  }

  /** Every upcoming seed event carries a registration link and no past one does. */
  lemma SeedRegistrationLinks()
    ensures forall i :: 0 <= i < |MockEvents| ==>
      (MockEvents[i].registrationLink.Some? <==> MockEvents[i].status == Upcoming)
  {
  }

  /**
   * Every past seed event has a non-empty gallery and review list (4/3, 2/2 and 2/1 items);
   * the upcoming ones have neither field.
   */
  lemma SeedHistory()
    ensures forall i :: 0 <= i < |MockEvents| ==>
      (MockEvents[i].status == Past <==> MockEvents[i].galleryImages.Some?) &&
      (MockEvents[i].status == Past <==> MockEvents[i].reviews.Some?)
    ensures |MockEvents[3].galleryImages.value| == 4 && |MockEvents[3].reviews.value| == 3
    ensures |MockEvents[4].galleryImages.value| == 2 && |MockEvents[4].reviews.value| == 2
    ensures |MockEvents[5].galleryImages.value| == 2 && |MockEvents[5].reviews.value| == 1
  {
  }

  /** Seed ratings all lie in 1..5, and the six review ids `r1` to `r6` are distinct. */
  lemma SeedReviewsWellFormed()
    ensures |SeedReviews()| == 6
    ensures forall k :: 0 <= k < |SeedReviews()| ==> 1 <= SeedReviews()[k].rating <= 5
    ensures forall i, j :: 0 <= i < j < |SeedReviews()| ==> SeedReviews()[i].id != SeedReviews()[j].id
  {
    var rs := SeedReviews();
    forall i, j | 0 <= i < j < |rs| ensures rs[i].id != rs[j].id {
      assert rs[i].id[1] != rs[j].id[1];
    }
  }
}
