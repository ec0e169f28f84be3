/** The skill-category cards' shell-script window titles. */
module SkillsSection {
  import opened Text

  /** Lower-case the name, turn each " & " into '_', then each remaining
      space into '_', and append ".sh". */
  function ScriptTitle(name: string): (r: string)
    ensures ' ' !in r
    ensures |r| >= 3 && r[|r| - 3..] == ".sh"
  {
    var joined := ReplaceAll(Lower(name), " & ", "_");
    ReplaceAllRemoves(joined, ' ', "_");
    ReplaceAll(joined, " ", "_") + ".sh"
  }

  /** The same replacements applied in the opposite order. */
  function SpacesFirstTitle(name: string): string
  {
    ReplaceAll(ReplaceAll(Lower(name), " ", "_"), " & ", "_") + ".sh"
  }

  /** A name lower-casing to "a & b", for two words without spaces, is titled
      "a_b.sh". */
  lemma AmpersandTitle(name: string, a: string, b: string)
    requires Lower(name) == a + " & " + b
    requires ' ' !in a && ' ' !in b
    ensures ScriptTitle(name) == a + "_" + b + ".sh"
  {
    ReplaceAfterWord(a, b, " & ", "_");
    ReplaceAllMiss(b, " & ", "_", ' ');
    assert ' ' !in a + "_" + b;
    ReplaceAllMiss(a + "_" + b, " ", "_", ' ');
  }

  /** A name lower-casing to "a b", for two words without spaces, is titled
      "a_b.sh". */
  lemma SpaceTitle(name: string, a: string, b: string)
    requires Lower(name) == a + " " + b
    requires ' ' !in a && ' ' !in b
    ensures ScriptTitle(name) == a + "_" + b + ".sh"
  {
    NoSeparatorBetweenWords(a, b);
    SpaceUnderscored(a, b);
  }

  /** A name lower-casing to "a & b c", for three words without spaces, is
      titled "a_b_c.sh". */
  lemma AmpersandSpaceTitle(name: string, a: string, b: string, c: string)
    requires Lower(name) == a + " & " + (b + " " + c)
    requires ' ' !in a && ' ' !in b && ' ' !in c
    ensures ScriptTitle(name) == a + "_" + b + "_" + c + ".sh"
  {
    ReplaceAfterWord(a, b + " " + c, " & ", "_");
    NoSeparatorBetweenWords(b, c);
    assert a + "_" + (b + " " + c) == (a + "_" + b) + " " + c;
    assert ' ' !in a + "_" + b;
    SpaceUnderscored(a + "_" + b, c);
  }

  /** A single space between two words without spaces is never the start of
      " & ", whatever the words hold. */
  lemma NoSeparatorBetweenWords(b: string, c: string)
    requires ' ' !in b && ' ' !in c
    ensures ReplaceAll(b + " " + c, " & ", "_") == b + " " + c
  {
    assert b + " " + c == b + (" " + c);
    ReplaceAllSkips(b, " " + c, " & ", "_");
    var s := " " + c;
    if |s| >= 3 {
      assert s[..3][2] == c[1];
      assert c[1] in c;
    }
    assert s[1..] == c;
    assert ReplaceAll(s, " & ", "_") == [s[0]] + ReplaceAll(c, " & ", "_");
    ReplaceAllMiss(c, " & ", "_", ' ');
  }

  lemma AiTitle(name: string)
    requires name == "AI & Machine Learning"
    ensures ScriptTitle(name) == "ai_machine_learning.sh"
  {
    AiLower(name);
    AmpersandSpaceTitle(name, "ai", "machine", "learning");
  }

  lemma AiLower(name: string)
    requires name == "AI & Machine Learning"
    ensures Lower(name) == "ai" + " & " + ("machine" + " " + "learning")
  {
    LowerIs("AI & Machine Learning", "ai & machine learning");
  }

  lemma ToolsTitle(name: string)
    requires name == "Tools & Technologies"
    ensures ScriptTitle(name) == "tools_technologies.sh"
  {
    ToolsLower(name);
    AmpersandTitle(name, "tools", "technologies");
  }

  lemma ToolsLower(name: string)
    requires name == "Tools & Technologies"
    ensures Lower(name) == "tools" + " & " + "technologies"
  {
    LowerIs("Tools & Technologies", "tools & technologies");
  }

  lemma DataTitle(name: string)
    requires name == "Data & Analytics"
    ensures ScriptTitle(name) == "data_analytics.sh"
  {
    DataLower(name);
    AmpersandTitle(name, "data", "analytics");
  }

  lemma DataLower(name: string)
    requires name == "Data & Analytics"
    ensures Lower(name) == "data" + " & " + "analytics"
  {
    LowerIs("Data & Analytics", "data & analytics");
  }

  lemma WebTitle(name: string)
    requires name == "Web Development"
    ensures ScriptTitle(name) == "web_development.sh"
  {
    WebLower(name);
    SpaceTitle(name, "web", "development");
  }

  lemma WebLower(name: string)
    requires name == "Web Development"
    ensures Lower(name) == "web" + " " + "development"
  {
    LowerIs("Web Development", "web development");
  }

  /** The order of the two replacements matters: once the spaces are gone,
      no " & " is left to collapse. */
  lemma ReplacementOrderMatters(name: string)
    requires name == "AI & Machine Learning"
    ensures SpacesFirstTitle(name) == "ai_&_machine_learning.sh"
    ensures SpacesFirstTitle(name) != ScriptTitle(name)
  {
    AiTitle(name);
    AiSpacesFirstTitle(name);
    assert "ai_&_machine_learning.sh"[3] != "ai_machine_learning.sh"[3];
  }

  lemma AiSpacesFirstTitle(name: string)
    requires name == "AI & Machine Learning"
    ensures SpacesFirstTitle(name) == "ai_&_machine_learning.sh"
  {
    AiLower(name);
    SpacesFirstKeepsAmpersand(name, "ai", "machine", "learning");
  }

  /** Replacing the spaces of "a & b c" first leaves no " & " behind. */
  lemma SpacesFirstKeepsAmpersand(name: string, a: string, b: string, c: string)
    requires Lower(name) == a + " & " + (b + " " + c)
    requires ' ' !in a && ' ' !in b && ' ' !in c
    ensures SpacesFirstTitle(name) == a + "_&_" + (b + "_" + c) + ".sh"
  {
    SpacesUnderscored(a, b, c);
    assert ' ' !in a + "_&_" + (b + "_" + c);
    ReplaceAllMiss(a + "_&_" + (b + "_" + c), " & ", "_", ' ');
  }

  /** Each space of "a & b c" becomes '_'. */
  lemma SpacesUnderscored(a: string, b: string, c: string)
    requires ' ' !in a && ' ' !in b && ' ' !in c
    ensures ReplaceAll(a + " & " + (b + " " + c), " ", "_") == a + "_&_" + (b + "_" + c)
  {
    assert a + " & " + (b + " " + c) == a + " " + ("&" + " " + (b + " " + c));
    ReplaceAfterWord(a, "&" + " " + (b + " " + c), " ", "_");
    ReplaceAfterWord("&", b + " " + c, " ", "_");
    SpaceUnderscored(b, c);
  }

  /** The one space of "b c" becomes '_'. */
  lemma SpaceUnderscored(b: string, c: string)
    requires ' ' !in b && ' ' !in c
    ensures ReplaceAll(b + " " + c, " ", "_") == b + "_" + c
  {
    ReplaceAfterWord(b, c, " ", "_");
    ReplaceAllMiss(c, " ", "_", ' ');
  }
}
