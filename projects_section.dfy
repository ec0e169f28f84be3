/** The project cards: badge colour per project type and the README window title. */
module ProjectsSection {
  import opened Text

  /** Colour token of a project-type badge; any unknown type falls back to plain text. */
  function TypeColor(projectType: string): (r: string)
    ensures projectType == "AI/ML" ==> r == "terminal-cyan"
    ensures projectType == "Full-Stack" ==> r == "terminal-purple"
    ensures projectType == "Analytics" ==> r == "terminal-green"
    ensures r == "terminal-text" <==> projectType !in {"AI/ML", "Full-Stack", "Analytics"}
  {
    match projectType
    case "AI/ML" => "terminal-cyan"
    case "Full-Stack" => "terminal-purple"
    case "Analytics" => "terminal-green"
    case _ => "terminal-text"
  }

  /** Slug part of the title: lower-cased name with every space turned into '-'.
      It has the name's length and no spaces, and each character is the
      lower-cased character of the name, or '-' where the name has a space. */
  function Slug(name: string): (r: string)
    ensures |r| == |name|
    ensures ' ' !in r
    ensures forall k :: 0 <= k < |name| ==>
      r[k] == (if name[k] == ' ' then '-' else LowerChar(name[k]))
  {
    ReplaceCharAt(Lower(name), ' ', '-');
    ReplaceAllRemoves(Lower(name), ' ', "-");
    ReplaceAll(Lower(name), " ", "-")
  }

  /** The card's window title: the slug followed by "/README.md". */
  function ReadmeTitle(name: string): (r: string)
    ensures ' ' !in r
    ensures |r| == |name| + 10 && r[..|name|] == Slug(name) && r[|name|..] == "/README.md"
  {
    var t := Slug(name) + "/README.md";
    assert t[..|name|] == Slug(name) && t[|name|..] == "/README.md";
    t
  }

  lemma DashboardTitle(name: string)
    requires name == "Data Analysis Dashboard"
    ensures ReadmeTitle(name) == "data-analysis-dashboard/README.md"
  {
    DashboardLower(name);
    DashboardDashes(Lower(name));
  }

  lemma DashboardLower(name: string)
    requires name == "Data Analysis Dashboard"
    ensures Lower(name) == "data analysis dashboard"
  {
    LowerIs("Data Analysis Dashboard", "data analysis dashboard");
  }

  lemma DashboardDashes(lower: string)
    requires lower == "data analysis dashboard"
    ensures ReplaceAll(lower, " ", "-") == "data-analysis-dashboard"
  {
    ReplaceCharIs(lower, ' ', '-', "data-analysis-dashboard");
  }
}
