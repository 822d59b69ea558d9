/**
 * The portfolio's skills section: per-category colour classes with a
 * fallback, the progress-bar class, and the "N technologies mastered"
 * caption of each category card.
 */
module Skills {
  import opened Strings

  const ColorMap: map<string, string> :=
    map["primary" := "text-primary border-primary/30 bg-primary/10",
        "secondary" := "text-secondary border-secondary/30 bg-secondary/10",
        "accent" := "text-accent border-accent/30 bg-accent/10",
        "success" := "text-success border-success/30 bg-success/10"]

  /** `getColorClasses`: `colorMap[color] || colorMap.primary`. */
  function ColorClasses(color: string): (r: string)
    ensures r in ColorMap.Values
    ensures color in ColorMap ==> r == ColorMap[color]
    ensures r == ColorMap["primary"] <==> color == "primary" || color !in ColorMap
  {
    if color in ColorMap && ColorMap[color] != "" then ColorMap[color] else ColorMap["primary"]
  }

  /** The progress bar's ternary chain: anything but the first three colours is `bg-success`. */
  function ProgressBarClass(color: string): (r: string)
    ensures r in {"gradient-primary", "gradient-secondary", "bg-accent", "bg-success"}
    ensures color == "primary" ==> r == "gradient-primary"
    ensures color == "secondary" ==> r == "gradient-secondary"
    ensures color == "accent" ==> r == "bg-accent"
    ensures r == "bg-success" <==> color != "primary" && color != "secondary" && color != "accent"
  {
    if color == "primary" then "gradient-primary"
    else if color == "secondary" then "gradient-secondary"
    else if color == "accent" then "bg-accent"
    else "bg-success"
  }

  /**
   * The two fallbacks differ: a colour outside the map gets the primary card
   * classes but the success progress bar.
   */
  lemma FallbacksDisagree(color: string)
    requires color !in ColorMap
    ensures ColorClasses(color) == ColorMap["primary"] && ProgressBarClass(color) == "bg-success"
  {
  }

  datatype Skill = Skill(name: string, level: nat, experience: string)

  datatype SkillCategory = SkillCategory(title: string, color: string, skills: seq<Skill>)

  const MasteredSuffix := " technologies mastered"

  /** `{category.skills.length} technologies mastered`: a decimal number, then the fixed words. */
  function MasteredCaption(c: SkillCategory): (caption: string)
    ensures |caption| > |MasteredSuffix|
    ensures caption[|caption| - |MasteredSuffix|..] == MasteredSuffix
    ensures forall k :: 0 <= k < |caption| - |MasteredSuffix| ==> IsDigit(caption[k])
    // no leading zero: a '0' in front is the whole number
    ensures caption[0] == '0' ==> |caption| == |MasteredSuffix| + 1
  {
    Decimal(|c.skills|) + MasteredSuffix
  }

  /** The number in front of the words reads back as the number of skills listed in the category. */
  lemma MasteredCaptionCounts(c: SkillCategory)
    ensures var caption := MasteredCaption(c);
      ParseDecimal(caption[..|caption| - |MasteredSuffix|]) == |c.skills|
  {
    var caption := MasteredCaption(c);
    assert caption[..|caption| - |MasteredSuffix|] == Decimal(|c.skills|);
    DecimalRoundTrip(|c.skills|);
  }
}
