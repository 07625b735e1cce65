/** The profile fixtures the web client bundles as placeholder data: six
    creator summaries (the same six the API lists first), a simpler
    profile generator, the profiles keyed by handle, and the overview mock. */
module WebProfileMocks {
  import opened Wrappers
  import opened JsText
  import opened ProfileDomain
  import CreatorFixtures

  const CreatorSummaries: seq<CreatorSummary> := [
    CreatorSummary("hazel-quinn", "Hazel Quinn", Some("https://i.pravatar.cc/150?img=31"),
      "Designs ambient learning labs for indie makers.",
      "Creative coding ecosystems", 3, 1240, "Hosting async code critique tonight"),
    CreatorSummary("malik-reyes", "Malik Reyes", Some("https://i.pravatar.cc/150?img=32"),
      "Coaches podcasters on calm launch systems.",
      "Creator audio accelerators", 4, 980, "Reviewing member audition tapes"),
    CreatorSummary("priya-raman", "Priya Raman", Some("https://i.pravatar.cc/150?img=33"),
      "Builds premium circles for health educators.",
      "Community-backed course design", 2, 1620, "Drafting companion onboarding prompts"),
    CreatorSummary("devon-hart", "Devon Hart", Some("https://i.pravatar.cc/150?img=34"),
      "Specialises in serene story circles for storytellers.",
      "Narrative development studios", 3, 1124, "Publishing highlight anthology"),
    CreatorSummary("lila-song", "Lila Song", Some("https://i.pravatar.cc/150?img=35"),
      "Helps wellness founders run thoughtful masterminds.",
      "Mindful business collectives", 3, 1420, "Opening premium breathwork track"),
    CreatorSummary("nico-alvarez", "Nico Alvarez", Some("https://i.pravatar.cc/150?img=36"),
      "Runs cohort labs for indie SaaS builders.",
      "Lean growth operators", 4, 1885, "Scheduling async launch teardown")
  ]

  /** The web list repeats the first six entries the API serves. */
  lemma SummariesMirrorApi()
    ensures CreatorSummaries == CreatorFixtures.CreatorEntries[..6]
  {
  }

  /** The two featured circles: even positions and odd positions get
      different cadence pairs, and the second circle has four fewer members. */
  function MockCircles(summary: CreatorSummary, index: nat, ids: seq<string>, focusLower: string): (circles: seq<CreatorCircleSummary>)
    requires |ids| == 6
    ensures |circles| == 2 && circles[0].id == ids[0] && circles[1].id == ids[1]
    ensures circles[0].cadence == (if index % 2 == 0 then "Weekly · Thursdays" else "Bi-weekly · Tuesdays")
    ensures circles[1].cadence == (if index % 2 == 0 then "Monthly · Saturdays" else "Weekly · Mondays")
    ensures circles[0].cadence != circles[1].cadence
    ensures circles[0].members == 16 + 2 * index && circles[1].members == circles[0].members - 4
    ensures circles[0].theme == summary.focus
    ensures circles[0].name == FirstWord(summary.name) + "'s " + FirstWord(summary.focus) + " Lab"
    ensures circles[1].name == FirstWord(summary.name) + " Studio Sessions"
  {
    var cadenceA := if index % 2 == 0 then "Weekly · Thursdays" else "Bi-weekly · Tuesdays";
    var cadenceB := if index % 2 == 0 then "Monthly · Saturdays" else "Weekly · Mondays";
    assert cadenceA[0] != cadenceB[0];
    var membersBase := 16 + index * 2;
    [ CreatorCircleSummary(ids[0], FirstWord(summary.name) + "'s " + FirstWord(summary.focus) + " Lab", summary.focus,
        cadenceA, membersBase, "Companion surfaced rituals " + "that keep " + focusLower + " thriving."),
      CreatorCircleSummary(ids[1], FirstWord(summary.name) + " Studio Sessions", summary.focus + " · Premium",
        cadenceB, membersBase - 4, "Premium members co-create " + "assets while Companion " + "drafts follow-up actions.") ]
  }

  /** The two testimonials; only the first quote depends on the summary. */
  function MockTestimonials(summary: CreatorSummary, ids: seq<string>): (testimonials: seq<CreatorTestimonial>)
    requires |ids| == 6
    ensures |testimonials| == 2 && testimonials[0].id == ids[2] && testimonials[1].id == ids[3]
    ensures testimonials[0].author == "Member momentum snapshot" && testimonials[1].author == "CircleCast Pulse"
  {
    [ CreatorTestimonial(ids[2], FirstWord(summary.name) + "'s circles feel " + "handcrafted—every " + "follow-up keeps momentum " + "alive.",
        "Member momentum snapshot"),
      CreatorTestimonial(ids[3], "Members rave about the " + "calm pace and actionable " + "prompts tailored to the " + "group.",
        "CircleCast Pulse") ]
  }

  /** The two highlights, the same text for every creator. */
  function MockHighlights(ids: seq<string>): (highlights: seq<CreatorHighlight>)
    requires |ids| == 6
    ensures |highlights| == 2 && highlights[0].id == ids[4] && highlights[1].id == ids[5]
  {
    [ CreatorHighlight(ids[4], "Companion clip: Weekly " + "spotlight",
        "A reel capturing " + "breakthrough ideas from " + "the latest live session."),
      CreatorHighlight(ids[5], "Session summary: " + "Turning insights into " + "action",
        "Companion summarised " + "member breakthroughs and " + "queued next-step tasks.") ]
  }

  /** The profile the web mock builds for the summary at `index`. */
  function BuildMockProfile(summary: CreatorSummary, index: nat): (p: CreatorProfile)
    ensures p.handle == summary.handle && p.headline == summary.headline
    ensures |p.featuredCircles| == 2 && |p.testimonials| == 2 && |p.highlights| == 2
    ensures ProfileIds(p) == GeneratedIds(summary.handle) && PairwiseDistinct(ProfileIds(p))
    ensures p.featuredCircles == MockCircles(summary, index, GeneratedIds(summary.handle), ToLower(summary.focus))
    ensures p.testimonials == MockTestimonials(summary, GeneratedIds(summary.handle))
  {
    var ids := GeneratedIds(summary.handle);
    var p := CreatorProfile(summary.handle, summary.headline, MockCircles(summary, index, ids, ToLower(summary.focus)),
                            MockTestimonials(summary, ids), MockHighlights(ids));
    SixIds(ids);
    p
  }

  const CreatorProfilesMock: map<string, CreatorProfile> := ProfilesByHandle(CreatorSummaries, BuildMockProfile)

  /** The mock's keys are the six summaries' handles. */
  lemma CreatorProfilesMockKeys()
    ensures CreatorProfilesMock.Keys == set i | 0 <= i < |CreatorSummaries| :: CreatorSummaries[i].handle
  {
    ProfilesKeys(CreatorSummaries, BuildMockProfile);
  }

  /** The six handles are pairwise distinct (their first letters differ). */
  lemma SummaryHandlesDistinct()
    ensures forall i, j :: 0 <= i < j < |CreatorSummaries| ==> CreatorSummaries[i].handle != CreatorSummaries[j].handle
  {
    var s := CreatorSummaries;
    assert s[0].handle[0] == 'h' && s[1].handle[0] == 'm' && s[2].handle[0] == 'p';
    assert s[3].handle[0] == 'd' && s[4].handle[0] == 'l' && s[5].handle[0] == 'n';
  }

  /** Every profile in the mock carries the handle it is stored under. */
  lemma CreatorProfilesMockHandles()
    ensures forall k :: k in CreatorProfilesMock ==> CreatorProfilesMock[k].handle == k
  {
    ProfilesKeyedByHandle(CreatorSummaries, BuildMockProfile);
  }

  /** The first summary's handle is not repeated later in the list, so the
      profile stored under it is the one built from the first summary. */
  lemma FirstSummaryProfile()
    ensures CreatorSummaries[0].handle in CreatorProfilesMock
    ensures CreatorProfilesMock[CreatorSummaries[0].handle] == BuildMockProfile(CreatorSummaries[0], 0)
  {
    assert forall j :: 0 < j < |CreatorSummaries| ==> CreatorSummaries[j].handle != CreatorSummaries[0].handle;
    ProfileAtHandle(CreatorSummaries, BuildMockProfile, 0);
  }

  /** `creatorProfileMock`: the profile stored under the first summary's handle. */
  function CreatorProfileMock(): (p: CreatorProfile)
    ensures p.handle == CreatorSummaries[0].handle
  {
    FirstSummaryProfile();
    CreatorProfilesMock[CreatorSummaries[0].handle]
  }

  /** The single-profile mock is the one generated from the first summary at
      position 0. */
  lemma CreatorProfileMockIsFirstSummary()
    ensures CreatorProfileMock() == BuildMockProfile(CreatorSummaries[0], 0)
  {
    FirstSummaryProfile();
  }

  /** `profileOverviewMock`: the same overview as the API's except for the
      circle cadences, and it follows the six summaries. */
  const ProfileOverviewMock: ProfileOverview :=
    CreatorFixtures.ProfileOverviewMock.(
      circles := [
        ProfileCircleSummary("circle-1", "Indie Music Circle", "Weekly · Thursdays", 18, "Live session tomorrow · 10a ET"),
        ProfileCircleSummary("circle-2", "Creator Monetisation Lab", "Bi-weekly · Tuesdays", 12, "Companion drafting circle brief")
      ],
      following := CreatorSummaries)

  /** `followingCreatorsMock` */
  const FollowingCreatorsMock: seq<CreatorSummary> := CreatorSummaries

  /** The web placeholder differs from the API's only in its circles'
      cadences, which name the weekday, and in whom it follows. */
  lemma OverviewMockMirrorsApi()
    ensures var api := CreatorFixtures.ProfileOverviewMock;
      && ProfileOverviewMock.(circles := api.circles, following := api.following) == api
      && |ProfileOverviewMock.circles| == |api.circles|
      && forall i :: 0 <= i < |api.circles| ==> ProfileOverviewMock.circles[i].(cadence := api.circles[i].cadence) == api.circles[i]
  {
  }

  /** The web placeholder follows the creators its `following` mock lists,
      and those are the first six that the API serves. */
  lemma FollowingMockIsApiPrefix()
    ensures ProfileOverviewMock.following == FollowingCreatorsMock
    ensures FollowingCreatorsMock == CreatorFixtures.FollowingCreatorsMock[..6]
  {
    SummariesMirrorApi();
  }
}
