/**
 * The portfolio's static project grid. Each card shows at most four
 * technology badges and, when there are more, one "+N" badge for the rest.
 * The category buttons above the grid have no click handler, so every
 * project is always shown.
 */
module Projects {
  import opened Options
  import opened Strings

  const MaxBadges := 4

  datatype TechBadges = TechBadges(shown: seq<string>, overflow: Option<string>)

  /** `technologies.slice(0, 4)` and, if `technologies.length > 4`, `+{technologies.length - 4}`. */
  function Badges(technologies: seq<string>): (b: TechBadges)
    ensures |b.shown| == if |technologies| < MaxBadges then |technologies| else MaxBadges
    ensures b.shown == technologies[..|b.shown|]
    ensures b.overflow.Some? <==> |technologies| > MaxBadges
    ensures b.overflow.Some? ==> |b.overflow.value| >= 2 && b.overflow.value[0] == '+'
    // after the '+', decimal digits without a leading zero
    ensures b.overflow.Some? ==> b.overflow.value[1] != '0' &&
                                 forall k :: 1 <= k < |b.overflow.value| ==> IsDigit(b.overflow.value[k])
  {
    var shown := if |technologies| <= MaxBadges then technologies else technologies[..MaxBadges];
    if |technologies| > MaxBadges then TechBadges(shown, Some("+" + Decimal(|technologies| - MaxBadges)))
    else TechBadges(shown, None)
  }

  /** The number an overflow badge stands for, read back from its text. */
  function OverflowCount(b: TechBadges): (n: nat)
    requires b.overflow.Some? ==> |b.overflow.value| >= 1 &&
                                  forall k :: 1 <= k < |b.overflow.value| ==> IsDigit(b.overflow.value[k])
  {
    if b.overflow.None? then 0 else ParseDecimal(b.overflow.value[1..])
  }

  /** The shown badges and the number on the overflow badge add up to all technologies. */
  lemma BadgesAccountForAll(technologies: seq<string>)
    ensures var b := Badges(technologies);
      (b.overflow.Some? ==> forall k :: 1 <= k < |b.overflow.value| ==> IsDigit(b.overflow.value[k])) &&
      |b.shown| + OverflowCount(b) == |technologies|
  {
    var b := Badges(technologies);
    if |technologies| > MaxBadges {
      var n := |technologies| - MaxBadges;
      assert b.overflow.value[1..] == Decimal(n);
      DecimalRoundTrip(n);
    }
  }

  /** A project card's data; the grid draws one per project. */
  datatype Project = Project(id: nat, title: string, category: string, technologies: seq<string>, status: string)

  datatype Card = Card(title: string, category: string, status: string, badges: TechBadges)

  function CardFor(p: Project): Card {
    Card(p.title, p.category, p.status, Badges(p.technologies))
  }

  /** `projects.map(...)`: one card per project, in order, whatever button was pressed. */
  function Cards(projects: seq<Project>): (cs: seq<Card>)
    ensures |cs| == |projects|
    ensures forall k :: 0 <= k < |cs| ==> cs[k] == CardFor(projects[k])
    decreases |projects|
  {
    if projects == [] then [] else [CardFor(projects[0])] + Cards(projects[1..])
  }
}
