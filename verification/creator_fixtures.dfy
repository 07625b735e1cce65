/** The creator fixtures the API serves: twenty creator summaries, a
    generator that turns a summary and its list position into a full
    creator profile, the profiles keyed by handle, and the overview mock. */
module CreatorFixtures {
  import opened Wrappers
  import opened JsText
  import opened ProfileDomain

  const CreatorEntries: seq<CreatorSummary> := [
    CreatorSummary("hazel-quinn", "Hazel Quinn", Some("https://i.pravatar.cc/150?img=31"),
      "Designs ambient learning labs for indie makers.",
      "Creative coding ecosystems", 3, 1240, "Hosting async code critique tonight"),
    CreatorSummary("malik-reyes", "Malik Reyes", Some("https://i.pravatar.cc/150?img=32"),
      "Coaches podcasters on calm launch systems.",
      "Creator audio accelerators", 4, 980, "Reviewing member audition tapes"),
    CreatorSummary("priya-raman", "Priya Raman", Some("https://i.pravatar.cc/150?img=33"),
      "Builds premium circles for health educators.",
      "Community-backed course design", 2, 1620, "Drafting companion onboarding prompts"),
    CreatorSummary("devon-hart", "Devon Hart", Some("https://i.pravatar.cc/150?img=34"),
      "Specialises in serene story circles for storytellers.",
      "Narrative development studios", 3, 1124, "Publishing highlight anthology"),
    CreatorSummary("lila-song", "Lila Song", Some("https://i.pravatar.cc/150?img=35"),
      "Helps wellness founders run thoughtful masterminds.",
      "Mindful business collectives", 3, 1420, "Opening premium breathwork track"),
    CreatorSummary("nico-alvarez", "Nico Alvarez", Some("https://i.pravatar.cc/150?img=36"),
      "Runs cohort labs for indie SaaS builders.",
      "Lean growth operators", 4, 1885, "Scheduling async launch teardown"),
    CreatorSummary("tessa-monroe", "Tessa Monroe", Some("https://i.pravatar.cc/150?img=37"),
      "Curates hybrid salons for creative strategists.",
      "Brand storytelling salons", 2, 950, "Companion queuing invite sequence"),
    CreatorSummary("jordan-blake", "Jordan Blake", Some("https://i.pravatar.cc/150?img=38"),
      "Mentors community-led product studios.",
      "Member-driven product labs", 5, 2104, "Activating beta feedback sprint"),
    CreatorSummary("rui-chen", "Rui Chen", Some("https://i.pravatar.cc/150?img=39"),
      "Builds calm financial circles for freelancers.",
      "Creative finance cohorts", 3, 1320, "Preparing tax season Q&A"),
    CreatorSummary("amara-patel", "Amara Patel", Some("https://i.pravatar.cc/150?img=40"),
      "Guides mindful leadership pods for founders.",
      "Founder resilience pods", 3, 1750, "Launching companion accountability loop"),
    CreatorSummary("felix-ibarra", "Felix Ibarra", Some("https://i.pravatar.cc/150?img=41"),
      "Hosts async film scoring workshops.",
      "Cinematic audio collectives", 2, 840, "Scoring critique goes live tomorrow"),
    CreatorSummary("sienna-brooks", "Sienna Brooks", Some("https://i.pravatar.cc/150?img=42"),
      "Supports designers building ethical products.",
      "Inclusive product guilds", 3, 1640, "Publishing inclusive UX playbook"),
    CreatorSummary("harper-kim", "Harper Kim", Some("https://i.pravatar.cc/150?img=43"),
      "Runs career accelerators for community managers.",
      "Community leadership studios", 4, 1520, "Companion summarised salary AMA"),
    CreatorSummary("matteo-costa", "Matteo Costa", Some("https://i.pravatar.cc/150?img=44"),
      "Facilitates slow productivity labs.",
      "Calm operations collectives", 2, 1235, "Queueing gentle planning ritual"),
    CreatorSummary("noor-elsayed", "Noor El-Sayed", Some("https://i.pravatar.cc/150?img=45"),
      "Empowers educators launching micro-schools.",
      "Learning innovation circles", 3, 2040, "Onboarding parent advisory council"),
    CreatorSummary("elio-vargas", "Elio Vargas", Some("https://i.pravatar.cc/150?img=46"),
      "Coaches indie game designers on community loops.",
      "Indie game audio labs", 3, 990, "Showcase night kicks off Friday"),
    CreatorSummary("gemma-wilde", "Gemma Wilde", Some("https://i.pravatar.cc/150?img=47"),
      "Hosts experimental poetry circles.",
      "Creative writing ateliers", 4, 1185, "Publishing companion-generated zine"),
    CreatorSummary("aidan-walsh", "Aidan Walsh", Some("https://i.pravatar.cc/150?img=48"),
      "Builds calm-growth programs for agencies.",
      "Agency systems forums", 3, 1675, "Running pipeline ritual with members"),
    CreatorSummary("soleil-park", "Soleil Park", Some("https://i.pravatar.cc/150?img=49"),
      "Leads well-being circles for remote teams.",
      "Team wellness studios", 2, 1330, "Companion drafted restorative prompts"),
    CreatorSummary("vivian-hale", "Vivian Hale", Some("https://i.pravatar.cc/150?img=50"),
      "Guides storytellers through documentary labs.",
      "Documentary storytelling guilds", 3, 1580, "Co-editing member highlight reel")
  ]

  const Cadences: seq<string> := [
    "Weekly · Mondays",
    "Weekly · Tuesdays",
    "Weekly · Wednesdays",
    "Weekly · Thursdays",
    "Weekly · Fridays",
    "Bi-weekly · Tuesdays",
    "Bi-weekly · Thursdays",
    "Monthly · First Monday"
  ]

  const TestimonialAuthors: seq<string> := [
    "Avery Stone · CircleCast producer",
    "Mila Gardner · Community coach",
    "Jonas Lee · Indie creator",
    "Zara Walsh · Education strategist",
    "Elias Moore · Product storyteller"
  ]

  /** The second cadence is three places further round the list, and the
      list's cadences three places apart differ (here: in length). */
  lemma CadencesThreeApartDiffer(index: nat)
    ensures Cadences[index % 8] != Cadences[(index + 3) % 8]
  {
    var k := index % 8;
    assert (index + 3) % 8 == (k + 3) % 8;
    assert |Cadences[0]| == 16 && |Cadences[1]| == 17 && |Cadences[2]| == 19 && |Cadences[3]| == 18;
    assert |Cadences[4]| == 16 && |Cadences[5]| == 20 && |Cadences[6]| == 21 && |Cadences[7]| == 22;
  }

  /** The two featured circles of `buildCreatorProfile`. */
  function FeaturedCircles(entry: CreatorSummary, index: nat, ids: seq<string>, focusLower: string): (circles: seq<CreatorCircleSummary>)
    requires |ids| == 6
    ensures |circles| == 2 && circles[0].id == ids[0] && circles[1].id == ids[1]
    ensures circles[0].cadence == Cadences[index % 8] && circles[1].cadence == Cadences[(index + 3) % 8]
    ensures circles[0].cadence != circles[1].cadence
    ensures circles[0].members == 18 + 3 * (index % 5) && 18 <= circles[0].members <= 30
    ensures circles[1].members == 14 + 2 * (index % 7) && 14 <= circles[1].members <= 26
    ensures circles[0].theme == entry.focus
    ensures circles[0].name == FirstWord(entry.name) + "'s " + FirstWord(entry.focus) + " Lab"
    ensures circles[1].name == FirstWord(entry.name) + " Studio Sessions"
  {
    var firstName := FirstWord(entry.name);
    var cadenceA := Cadences[index % |Cadences|];
    var cadenceB := Cadences[(index + 3) % |Cadences|];
    var membersA := 18 + (index % 5) * 3;
    var membersB := 14 + (index % 7) * 2;
    CadencesThreeApartDiffer(index);
    [ CreatorCircleSummary(ids[0], firstName + "'s " + FirstWord(entry.focus) + " Lab", entry.focus, cadenceA, membersA,
        "Companion surfaced " + focusLower + " rituals that keep " + "members engaged."),
      CreatorCircleSummary(ids[1], firstName + " Studio Sessions", entry.focus + " · Premium", cadenceB, membersB,
        "Premium members " + "co-create assets while " + "the companion drafts " + "follow-up actions.") ]
  }

  /** The two testimonials of `buildCreatorProfile`. */
  function Testimonials(entry: CreatorSummary, index: nat, ids: seq<string>, focusLower: string): (testimonials: seq<CreatorTestimonial>)
    requires |ids| == 6
    ensures |testimonials| == 2 && testimonials[0].id == ids[2] && testimonials[1].id == ids[3]
    ensures testimonials[0].author == TestimonialAuthors[index % 5]
    ensures testimonials[1].author == "Member feedback snapshot"
  {
    var author := TestimonialAuthors[index % |TestimonialAuthors|];
    [ CreatorTestimonial(ids[2], FirstWord(entry.name) + "'s circles feel " + "handcrafted—every " + "companion follow-up " + "keeps momentum alive.", author),
      CreatorTestimonial(ids[3], "Members rave about the " + "calm pace and " + "actionable prompts " + "tailored to " + focusLower + ".",
        "Member feedback snapshot") ]
  }

  /** The two highlights of `buildCreatorProfile`. */
  function Highlights(entry: CreatorSummary, ids: seq<string>, focusLower: string): (highlights: seq<CreatorHighlight>)
    requires |ids| == 6
    ensures |highlights| == 2 && highlights[0].id == ids[4] && highlights[1].id == ids[5]
    ensures highlights[0].title == "Clip: " + entry.focus
  {
    [ CreatorHighlight(ids[4], "Clip: " + entry.focus,
        "A companion-generated " + "reel capturing " + FirstWord(entry.name) + "'s approach to " + focusLower + "."),
      CreatorHighlight(ids[5], "Session summary: " + "Turning insights into " + "action",
        "Companion summarised " + "member breakthroughs " + "and queued tasks for " + "the next " + focusLower + " sprint.") ]
  }

  /** `buildCreatorProfile(entry, index)` */
  function BuildCreatorProfile(entry: CreatorSummary, index: nat): (p: CreatorProfile)
    ensures p.handle == entry.handle && p.headline == entry.headline
    ensures |p.featuredCircles| == 2 && |p.testimonials| == 2 && |p.highlights| == 2
    ensures ProfileIds(p) == GeneratedIds(entry.handle) && PairwiseDistinct(ProfileIds(p))
    ensures p.featuredCircles == FeaturedCircles(entry, index, GeneratedIds(entry.handle), ToLower(entry.focus))
    ensures p.testimonials == Testimonials(entry, index, GeneratedIds(entry.handle), ToLower(entry.focus))
  {
    var ids := GeneratedIds(entry.handle);
    var focusLower := ToLower(entry.focus);
    var p := CreatorProfile(entry.handle, entry.headline, FeaturedCircles(entry, index, ids, focusLower),
                            Testimonials(entry, index, ids, focusLower), Highlights(entry, ids, focusLower));
    SixIds(ids);
    p
  }

  /** The mock's keys are the twenty entries' handles. */
  lemma CreatorProfilesMockKeys()
    ensures CreatorProfilesMock.Keys == set i | 0 <= i < |CreatorEntries| :: CreatorEntries[i].handle
  {
    ProfilesKeys(CreatorEntries, BuildCreatorProfile);
  }

  /** Every profile in the mock carries the handle it is stored under. */
  lemma CreatorProfilesMockHandles()
    ensures forall k :: k in CreatorProfilesMock ==> CreatorProfilesMock[k].handle == k
  {
    ProfilesKeyedByHandle(CreatorEntries, BuildCreatorProfile);
  }

  /** The first entry's handle is not repeated later in the list, so the
      profile stored under it is the one built from the first entry. */
  lemma FirstEntryProfile()
    ensures CreatorEntries[0].handle in CreatorProfilesMock
    ensures CreatorProfilesMock[CreatorEntries[0].handle] == BuildCreatorProfile(CreatorEntries[0], 0)
  {
    assert forall j :: 0 < j < |CreatorEntries| ==> CreatorEntries[j].handle != CreatorEntries[0].handle;
    ProfileAtHandle(CreatorEntries, BuildCreatorProfile, 0);
  }

  const CreatorProfilesMock: map<string, CreatorProfile> := ProfilesByHandle(CreatorEntries, BuildCreatorProfile)

  /** `creatorProfileMock`: the profile stored under the first entry's handle. */
  function CreatorProfileMock(): (p: CreatorProfile)
    ensures p.handle == CreatorEntries[0].handle
  {
    FirstEntryProfile();
    CreatorProfilesMock[CreatorEntries[0].handle]
  }

  /** The single-profile mock is the one generated from the first entry at
      position 0 (so it carries that entry's headline and generated ids). */
  lemma CreatorProfileMockIsFirstEntry()
    ensures CreatorProfileMock() == BuildCreatorProfile(CreatorEntries[0], 0)
  {
    FirstEntryProfile();
  }

  /** `profileOverviewMock`: the overview the profile router starts from;
      it follows all twenty creator entries. */
  const ProfileOverviewMock: ProfileOverview := ProfileOverview(
    id := "creator-avery",
    name := "Avery Stone",
    handle := "avery-studio",
    headline := "Runs Indie Music Circle · Experimenting " + "with calm, AI-supported audio " + "masterminds.",
    avatarUrl := Some("https://images.unsplash.com/photo-1544723795-3fb6469f5b39" + "?auto=format&fit=crop&w=200&q=80"),
    location := "Brooklyn, NY",
    availability := "Weekdays · 10a–2p ET",
    expertise := ["Audio storytelling", "Community ops", "Creator growth"],
    birthdate := Some("1992-04-17T00:00:00.000Z"),
    circles := [
      ProfileCircleSummary("circle-1", "Indie Music Circle", "Weekly", 18, "Live session tomorrow · 10a ET"),
      ProfileCircleSummary("circle-2", "Creator Monetisation Lab", "Bi-weekly", 12, "Companion drafting circle brief")
    ],
    highlights := [
      ProfileHighlight("highlight-1", "Session recap: Monetising micro-audiences",
        "Conversation around packaging live " + "workshops into limited-time drops. " + "Companion clipped 3 highlights.",
        Some("Creator Monetisation Lab")),
      ProfileHighlight("highlight-2", "Clip: Feedback loop for new members",
        "Shared onboarding prompt that doubled " + "week 1 participation.",
        Some("Indie Music Circle"))
    ],
    companionFocus := [
      ProfileTask("task-1", "Polish highlight reel copy", "12 min", "In progress"),
      ProfileTask("task-2", "Queue invites for premium tier", "25 min", "Queued")
    ],
    stats := [
      ProfileStat("Active circles", "2"),
      ProfileStat("Member retention", "92%"),
      ProfileStat("MRR", "$740"),
      ProfileStat("New applications", "14")
    ],
    agenda := [
      ProfileAgendaItem("agenda-1", "Review companion summary", "Today · 2:00p"),
      ProfileAgendaItem("agenda-2", "Host Indie Music Circle session", "Tomorrow · 10:00a")
    ],
    following := CreatorEntries)

  /** `followingCreatorsMock`: what the `following` procedure serves. */
  const FollowingCreatorsMock: seq<CreatorSummary> := CreatorEntries

  /** The overview placeholder follows exactly the twenty creators that the
      `following` procedure serves. */
  lemma OverviewMockFollowsServed()
    ensures |FollowingCreatorsMock| == 20 && ProfileOverviewMock.following == FollowingCreatorsMock
  {
  }

  /** The placeholder's "Active circles" stat is the number of circles it
      lists, as the stat of a computed overview is. */
  lemma OverviewMockStatsAgree()
    ensures |ProfileOverviewMock.stats| == 4 && ProfileOverviewMock.stats[0].caption == "Active circles"
    ensures ProfileOverviewMock.stats[0].value == IntToString(|ProfileOverviewMock.circles|)
  {
  }
}
