/** The profile records that the API returns and the fixtures build, and the
    two JavaScript idioms the fixture builders lean on: `Object.fromEntries`
    over a list of key/value pairs, and `name.split(" ")[0]`. */
module ProfileDomain {
  import opened Wrappers
  import opened JsText

  datatype CreatorSummary = CreatorSummary(
    handle: string, name: string, avatarUrl: Option<string>, headline: string,
    focus: string, circles: nat, followers: nat, status: string)

  datatype CreatorCircleSummary = CreatorCircleSummary(
    id: string, name: string, theme: string, cadence: string, members: int, highlight: string)

  datatype CreatorTestimonial = CreatorTestimonial(id: string, quote: string, author: string)

  datatype CreatorHighlight = CreatorHighlight(id: string, title: string, description: string)

  datatype CreatorProfile = CreatorProfile(
    handle: string, headline: string, featuredCircles: seq<CreatorCircleSummary>,
    testimonials: seq<CreatorTestimonial>, highlights: seq<CreatorHighlight>)

  datatype ProfileCircleSummary = ProfileCircleSummary(id: string, name: string, cadence: string, members: int, status: string)

  datatype ProfileHighlight = ProfileHighlight(id: string, title: string, description: string, circle: Option<string>)

  datatype ProfileTask = ProfileTask(id: string, title: string, eta: string, status: string)

  /** `label` is a Dafny keyword, so the label is called `caption`. */
  datatype ProfileStat = ProfileStat(caption: string, value: string)

  datatype ProfileAgendaItem = ProfileAgendaItem(id: string, title: string, time: string)

  datatype ProfileOverview = ProfileOverview(
    id: string, name: string, handle: string, headline: string, avatarUrl: Option<string>,
    location: string, availability: string, expertise: seq<string>, birthdate: Option<string>,
    circles: seq<ProfileCircleSummary>, highlights: seq<ProfileHighlight>,
    companionFocus: seq<ProfileTask>, stats: seq<ProfileStat>, agenda: seq<ProfileAgendaItem>,
    following: seq<CreatorSummary>)

  /** The six ids a generated creator profile carries, in document order. */
  function ProfileIds(p: CreatorProfile): seq<string>
    requires |p.featuredCircles| == 2 && |p.testimonials| == 2 && |p.highlights| == 2
  {
    [p.featuredCircles[0].id, p.featuredCircles[1].id,
     p.testimonials[0].id, p.testimonials[1].id,
     p.highlights[0].id, p.highlights[1].id]
  }

  predicate PairwiseDistinct(s: seq<string>) {
    forall i, j :: 0 <= i < j < |s| ==> s[i] != s[j]
  }

  /** `s.split(" ")[0]`: the text before the first space, or all of `s`. */
  function FirstWord(s: string): (w: string)
    ensures w <= s && ' ' !in w
    ensures |w| == |s| || s[|w|] == ' '
  {
    SplitFirstPiece(s, ' ');
    Split(s, ' ')[0]
  }

  /** `Object.fromEntries(entries)`: the entries assigned in order, so a key
      that occurs more than once takes the value of its last occurrence. */
  function FromEntries<V>(entries: seq<(string, V)>): map<string, V> {
    if entries == [] then map[]
    else
      var n := |entries| - 1;
      FromEntries(entries[..n])[entries[n].0 := entries[n].1]
  }

  /** Every key is defined, and nothing else. */
  lemma {:induction false} FromEntriesKeys<V>(entries: seq<(string, V)>)
    ensures forall k :: k in FromEntries(entries) <==> exists i :: 0 <= i < |entries| && entries[i].0 == k
  {
    if entries != [] {
      var n := |entries| - 1;
      FromEntriesKeys(entries[..n]);
      assert forall i :: 0 <= i < n ==> entries[..n][i] == entries[i];
    }
  }

  /** An entry whose key does not occur later provides the value. */
  lemma {:induction false} FromEntriesLastWins<V>(entries: seq<(string, V)>, i: nat)
    requires i < |entries|
    requires forall j :: i < j < |entries| ==> entries[j].0 != entries[i].0
    ensures entries[i].0 in FromEntries(entries) && FromEntries(entries)[entries[i].0] == entries[i].1
  {
    var n := |entries| - 1;
    if i < n {
      assert entries[..n][i] == entries[i];
      assert forall j :: i < j < n ==> entries[..n][j] == entries[j];
      FromEntriesLastWins(entries[..n], i);
    }
  }

  /** The ids both fixture builders give a creator's circles, testimonials
      and highlights: the handle followed by six distinct suffixes. */
  function GeneratedIds(handle: string): (ids: seq<string>)
    ensures |ids| == 6 && PairwiseDistinct(ids)
    ensures forall k :: 0 <= k < 6 ==> StartsWith(ids[k], handle)
  {
    var suffixes := ["-circle-1", "-circle-2", "-testimonial-1", "-testimonial-2", "-highlight-1", "-highlight-2"];
    var ids := seq(6, k requires 0 <= k < 6 => handle + suffixes[k]);
    forall i, j | 0 <= i < j < 6 ensures ids[i] != ids[j] {
      assert ids[i][|handle|..] == suffixes[i] && ids[j][|handle|..] == suffixes[j];
      assert suffixes[0][8] != suffixes[1][8];
      assert suffixes[2][13] != suffixes[3][13];
      assert suffixes[4][11] != suffixes[5][11];
    }
    forall k | 0 <= k < 6 ensures StartsWith(ids[k], handle) {
      assert ids[k][..|handle|] == handle;
    }
    ids
  }

  lemma SixIds(ids: seq<string>)
    requires |ids| == 6
    ensures ids == [ids[0], ids[1], ids[2], ids[3], ids[4], ids[5]]
  {
  }

  /** `summaries.map((summary, index) => [summary.handle, build(summary, index)])` */
  function ProfileEntries(summaries: seq<CreatorSummary>, build: (CreatorSummary, nat) -> CreatorProfile): (entries: seq<(string, CreatorProfile)>)
    ensures |entries| == |summaries|
    ensures forall i :: 0 <= i < |summaries| ==> entries[i] == (summaries[i].handle, build(summaries[i], i))
  {
    seq(|summaries|, i requires 0 <= i < |summaries| => (summaries[i].handle, build(summaries[i], i)))
  }

  function Handles(summaries: seq<CreatorSummary>): (handles: seq<string>)
    ensures |handles| == |summaries|
    ensures forall i :: 0 <= i < |summaries| ==> handles[i] == summaries[i].handle
  {
    if summaries == [] then [] else [summaries[0].handle] + Handles(summaries[1..])
  }

  /** `Object.fromEntries(summaries.map(...))`: the profiles keyed by handle. */
  function ProfilesByHandle(summaries: seq<CreatorSummary>, build: (CreatorSummary, nat) -> CreatorProfile): map<string, CreatorProfile> {
    FromEntries(ProfileEntries(summaries, build))
  }

  /** The keys are exactly the summaries' handles. */
  lemma ProfilesKeys(summaries: seq<CreatorSummary>, build: (CreatorSummary, nat) -> CreatorProfile)
    ensures ProfilesByHandle(summaries, build).Keys == set i | 0 <= i < |summaries| :: summaries[i].handle
  {
    var entries := ProfileEntries(summaries, build);
    FromEntriesKeys(entries);
    assert forall k :: k in ProfilesByHandle(summaries, build) ==> exists i :: 0 <= i < |summaries| && summaries[i].handle == k;
  }

  /** The profile under a summary's handle is the one built from that
      summary at its own position, unless a later summary has the same handle. */
  lemma ProfileAtHandle(summaries: seq<CreatorSummary>, build: (CreatorSummary, nat) -> CreatorProfile, i: nat)
    requires i < |summaries|
    requires forall j :: i < j < |summaries| ==> summaries[j].handle != summaries[i].handle
    ensures summaries[i].handle in ProfilesByHandle(summaries, build)
    ensures ProfilesByHandle(summaries, build)[summaries[i].handle] == build(summaries[i], i)
  {
    var entries := ProfileEntries(summaries, build);
    assert entries[i].0 == summaries[i].handle;
    assert forall j :: i < j < |entries| ==> entries[j].0 != entries[i].0;
    FromEntriesLastWins(entries, i);
  }

  /** For a builder that copies the handle, the profile under a key carries
      that key as its handle, and with pairwise distinct handles every
      summary's profile is the one built from it at its position. */
  lemma {:induction false} ProfilesKeyedByHandle(summaries: seq<CreatorSummary>, build: (CreatorSummary, nat) -> CreatorProfile)
    requires forall s, i :: build(s, i).handle == s.handle
    ensures forall k :: k in ProfilesByHandle(summaries, build) ==> ProfilesByHandle(summaries, build)[k].handle == k
    ensures PairwiseDistinct(Handles(summaries)) ==>
      forall i :: 0 <= i < |summaries| ==>
        summaries[i].handle in ProfilesByHandle(summaries, build)
        && ProfilesByHandle(summaries, build)[summaries[i].handle] == build(summaries[i], i)
  {
    var entries := ProfileEntries(summaries, build);
    var m := ProfilesByHandle(summaries, build);
    FromEntriesKeys(entries);
    forall k | k in m ensures m[k].handle == k {
      var i :| 0 <= i < |entries| && entries[i].0 == k;
      var last := LastWithKey(entries, k, i);
      FromEntriesLastWins(entries, last);
    }
    if PairwiseDistinct(Handles(summaries)) {
      forall i | 0 <= i < |summaries| ensures summaries[i].handle in m && m[summaries[i].handle] == build(summaries[i], i) {
        forall j | i < j < |summaries| ensures summaries[j].handle != summaries[i].handle {
          assert Handles(summaries)[i] != Handles(summaries)[j];
        }
        ProfileAtHandle(summaries, build, i);
      }
    }
  }

  /** The last position at or after `i` whose key is `k`. */
  lemma LastWithKey<V>(entries: seq<(string, V)>, k: string, i: nat) returns (last: nat)
    requires i < |entries| && entries[i].0 == k
    ensures i <= last < |entries| && entries[last].0 == k
    ensures forall j :: last < j < |entries| ==> entries[j].0 != k
    decreases |entries| - i
  {
    if exists j :: i < j < |entries| && entries[j].0 == k {
      var j :| i < j < |entries| && entries[j].0 == k;
      last := LastWithKey(entries, k, j);
    } else {
      last := i;
    }
  }
}
