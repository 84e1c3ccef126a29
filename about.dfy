/**
 * The founders' awards on the About page: the collapsed view shows at most
 * nine awards, the expanded view all of them, and a toggle appears only
 * when there is something to hide.
 */
module About {
  import opened JsCore

  datatype Award = Award(id: string, title: string, year: string, organization: string)

  /** A team member; `awards` is optional. */
  datatype Member = Member(name: string, role: string, awards: Option<seq<Award>>)

  /** How many awards the collapsed view shows. */
  const Shown: nat := 9

  /** `member.awards || []`: a missing list is the empty list. */
  function AwardsOf(m: Member): seq<Award> {
    if m.awards.Some? then m.awards.value else []
  }

  /** `member.awards?.length || 0`. */
  function AwardCount(m: Member): (n: nat)
    ensures n == |AwardsOf(m)|
  {
    if m.awards.Some? then |m.awards.value| else 0
  }

  /** `visibleAwards`: everything when expanded, otherwise `slice(0, 9)`. */
  function VisibleAwards(m: Member, expanded: bool): (v: seq<Award>)
    ensures expanded ==> v == AwardsOf(m)
    ensures !expanded ==> |v| == (if AwardCount(m) < Shown then AwardCount(m) else Shown)
    ensures !expanded ==> v == AwardsOf(m)[..|v|]
  {
    var all := AwardsOf(m);
    if expanded then all else all[..(if |all| < Shown then |all| else Shown)]
  }

  /** The toggle button is rendered when there are more than nine awards. */
  predicate ShowsToggle(m: Member) {
    AwardCount(m) > Shown
  }

  /** The button's label: "Collapse" when expanded, "See More (k)" with the hidden count otherwise. */
  function ToggleLabel(m: Member, expanded: bool): string
    requires ShowsToggle(m)
  {
    if expanded then "Collapse" else "See More (" + NatToString(AwardCount(m) - Shown) + ")"
  }

  /** The button's click flips `expanded`. */
  function Toggle(expanded: bool): bool {
    !expanded
  }

  /**
   * The toggle appears exactly when collapsing hides something, and the count
   * in its label is then the number of hidden awards, at least one.
   */
  lemma ToggleCountsHidden(m: Member)
    ensures ShowsToggle(m) <==> VisibleAwards(m, false) != VisibleAwards(m, true)
    ensures ShowsToggle(m) ==> AwardCount(m) - Shown >= 1
    ensures ShowsToggle(m) ==> |VisibleAwards(m, false)| + (AwardCount(m) - Shown) == |VisibleAwards(m, true)|
  {
    if ShowsToggle(m) {
      assert |VisibleAwards(m, false)| < |VisibleAwards(m, true)|;
    }
  }

  /** Two clicks restore the view, and a missing award list shows nothing either way. */
  lemma ToggleTwice(m: Member, expanded: bool)
    ensures VisibleAwards(m, Toggle(Toggle(expanded))) == VisibleAwards(m, expanded)
    ensures Toggle(expanded) != expanded
    ensures m.awards.None? ==> VisibleAwards(m, expanded) == [] && !ShowsToggle(m)
  {
  }

  /** The collapsed view never reorders: each award shown sits at its place in the full list. */
  lemma CollapsedKeepsOrder(m: Member, k: nat)
    requires k < |VisibleAwards(m, false)|
    ensures k < Shown && k < |AwardsOf(m)|
    ensures VisibleAwards(m, false)[k] == AwardsOf(m)[k]
  {
  }

  const PranshuAwards: seq<Award> := [
      Award("1", "Red Dot Design Award", "2020", "Red Dot"),
      Award("2", "Good Design Award", "2020", "Good Design"),
      Award("3", "German Design Award", "2021", "German Design Council"),
      Award("4", "London International Creative Competition", "2020", "LICC"),
      Award("5", "IXDA Engaging Project", "2021", "Interaction Design Association"),
      Award("6", "The Architecture MasterPrize", "2020", "Architecture MasterPrize"),
      Award("7", "Creative Communications Award", "2020", "Creative Communications"),
      Award("8", "FICCI-BAF Awards Best in XR", "2025", "FICCI-BAF"),
      Award("9", "Muse Creative: Augmented Reality", "2021", "Muse Creative Awards"),
      Award("10", "Muse Creative: Service Apps", "2021", "Muse Creative Awards"),
      Award("11", "Muse Creative: Business Apps", "2021", "Muse Creative Awards")
  ]

  const UdhayanAwards: seq<Award> := [
      Award("1", "Featured in The Hindu & Hindustan Times", "2017", "Digital Preservation with VR & 3D Scan"),
      Award("2", "SAE India CAD Modelling", "2011", "First Place"),
      Award("3", "Film Showcase", "2017", "IDSFFK"),
      Award("4", "Film Showcase", "2017", "Chitrakatha"),
      Award("5", "Film Showcase", "2020", "Alpavirama"),
      Award("6", "Film Showcase", "2020", "KIMFF"),
      Award("7", "BAF Awards: Best use of XR in Museum category", "2025", "BAF Awards")
  ]

  const MonalisaAwards: seq<Award> := [
      Award("1", "Workshop: Crafting an alternative association with time", "2022", "Primer Conference"),
      Award("2", "Workshop: Developing ZKP protocol for QuestBook", "2023", "Reclaim Protocol"),
      Award("3", "Runner Up in Designathon", "2019", "IXDD Hyderabad"),
      Award("4", "Invitation for Prototypes for Humanity", "2024", "Entrepreneurship Training, Dubai")
  ]

  /** The three founders. */
  const Founders: seq<Member> := [
    Member("Pranshu Chaudhary", "Founding Partner / Design Education & Innovation", Some(PranshuAwards)),
    Member("Udhayan RM", "Founding Partner / Immersive Technology & Film", Some(UdhayanAwards)),
    Member("Monalisa Thakur", "Founding Partner / UX & Product Design", Some(MonalisaAwards))
  ]

  /** Only the first founder's list is long enough for the toggle, which offers two more. */
  lemma FoundersToggle()
    ensures ShowsToggle(Founders[0]) && ToggleLabel(Founders[0], false) == "See More (2)"
    ensures !ShowsToggle(Founders[1]) && !ShowsToggle(Founders[2])
  {
  }
}
