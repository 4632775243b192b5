/** The ten keyword counters kept per salary bucket and the per-job tally that
    bumps them. */
module Tally {
  import opened Text

  /** The substrings looked for in a normalised description, in the order the
      counters are bumped; counter k belongs to Keywords[k]. */
  const Keywords: seq<string> :=
    ["java", "python", "javascript", "typescript", "reactjs",
     "vuejs", "spring", "nodejs", "mysql", "nosql"]

  const Java: nat := 0
  const JavaScript: nat := 2

  /** The counters after one job whose normalised description is `desc`. */
  function Tallied(counts: seq<nat>, desc: string): (r: seq<nat>)
    requires |counts| == |Keywords|
    ensures |r| == |Keywords|
  {
    seq(|Keywords|, k requires 0 <= k < |Keywords| =>
      if Contains(desc, Keywords[k]) then counts[k] + 1 else counts[k])
  }

  /** At most one per job: a counter grows by exactly one when its keyword occurs in
      the description, however often, and is unchanged otherwise. */
  lemma TalliedAtMostOne(counts: seq<nat>, desc: string, k: nat)
    requires |counts| == |Keywords| && k < |Keywords|
    ensures Tallied(counts, desc)[k] == counts[k] + 1 <==> Contains(desc, Keywords[k])
    ensures Tallied(counts, desc)[k] == counts[k] || Tallied(counts, desc)[k] == counts[k] + 1
  {
  }

  /** "java" is a prefix of "javascript", so a job counted for JavaScript is also
      counted for Java. */
  lemma JavaScriptCountsJava(counts: seq<nat>, desc: string)
    requires |counts| == |Keywords|
    ensures Tallied(counts, desc)[JavaScript] == counts[JavaScript] + 1 ==>
              Tallied(counts, desc)[Java] == counts[Java] + 1
  {
    if Contains(desc, "javascript") {
      assert "javascript" == "java" + "script";
      ContainsPrefix(desc, "java", "script");
    }
  }

  lemma LowerCamel(s: string)
    requires s == "JavaScript"
    ensures Lower(s) == "javascript"
  {
    var l := Lower(s);
    assert l[0] == 'j'; assert l[1] == 'a'; assert l[2] == 'v'; assert l[3] == 'a'; assert l[4] == 's';
    assert l[5] == 'c'; assert l[6] == 'r'; assert l[7] == 'i'; assert l[8] == 'p'; assert l[9] == 't';
  }

  lemma LowerShouted(s: string)
    requires s == "JAVASCRIPT"
    ensures Lower(s) == "javascript"
  {
    var l := Lower(s);
    assert l[0] == 'j'; assert l[1] == 'a'; assert l[2] == 'v'; assert l[3] == 'a'; assert l[4] == 's';
    assert l[5] == 'c'; assert l[6] == 'r'; assert l[7] == 'i'; assert l[8] == 'p'; assert l[9] == 't';
  }

  /** "javascript" is already in normal form. */
  lemma NormalJavaScript(w: string)
    requires w == "javascript"
    ensures Normalise(w) == w
  {
    assert forall i :: 0 <= i < |w| ==> 'a' <= w[i] <= 'z';
    LowerOfLower(w);
    StripSpaceOfClean(w);
  }

  lemma NormaliseJavaScript(s: string)
    requires s == "JavaScript" || s == "javascript" || s == "JAVASCRIPT"
    ensures Normalise(s) == "javascript"
  {
    var w := "javascript";
    NormalJavaScript(w);
    if s == "JavaScript" {
      LowerCamel(s);
      NormaliseIgnoresCase(s);
    } else if s == "JAVASCRIPT" {
      LowerShouted(s);
      NormaliseIgnoresCase(s);
    }
  }

  lemma DropSpace(s: string, a: string, b: string, t: string)
    requires s == a + [' '] + b && t == a + b
    ensures Normalise(s) == Normalise(t)
  {
    NormaliseIgnoresSpace(a, ' ', b);
  }

  lemma DropTrailingSpace(s: string, a: string)
    requires s == a + [' ']
    ensures Normalise(s) == Normalise(a)
  {
    NormaliseAppend(a, [' ']);
    NormaliseSpace(' ');
  }

  lemma NormaliseJavaSpaceScript(s: string)
    requires s == "Java Script"
    ensures Normalise(s) == "javascript"
  {
    DropSpace(s, "Java", "Script", "JavaScript");
    NormaliseJavaScript("JavaScript");
  }

  lemma NormaliseShoutedJavaScript(s: string)
    requires s == "JAVA SCRIPT "
    ensures Normalise(s) == "javascript"
  {
    var t := "JAVASCRIPT ";
    ShoutedSpace(s, t);
    NormaliseShouted(t, "JAVASCRIPT");
  }

  lemma ShoutedSpace(s: string, t: string)
    requires s == "JAVA SCRIPT " && t == "JAVASCRIPT "
    ensures Normalise(s) == Normalise(t)
  {
    DropSpace(s, "JAVA", "SCRIPT ", t);
  }

  lemma NormaliseShouted(t: string, u: string)
    requires t == "JAVASCRIPT " && u == "JAVASCRIPT"
    ensures Normalise(t) == "javascript"
  {
    DropTrailingSpace(t, u);
    NormaliseJavaScript(u);
  }

  lemma ContainsJavaScript(s: string)
    requires s == "javascript"
    ensures Contains(s, Keywords[JavaScript])
  {
    assert OccursAt(s, Keywords[JavaScript], 0);
  }

  /** The spellings "Java Script", "javascript" and "JAVA SCRIPT " all normalise to
      "javascript", so each counts toward the JavaScript keyword. */
  lemma SpellingsMatchJavaScript()
    ensures Normalise("Java Script") == "javascript"
    ensures Normalise("javascript") == "javascript"
    ensures Normalise("JAVA SCRIPT ") == "javascript"
    ensures Contains("javascript", Keywords[JavaScript])
  {
    NormaliseJavaSpaceScript("Java Script");
    NormaliseJavaScript("javascript");
    NormaliseShoutedJavaScript("JAVA SCRIPT ");
    ContainsJavaScript("javascript");
  }

  /** The ten `if (jobDescription.includes(...)) xCount++` statements, in order. */
  method CountKeywords(desc: string, counters: array<nat>)
    requires counters.Length == |Keywords|
    modifies counters
    ensures counters[..] == Tallied(old(counters[..]), desc)
  {
    ghost var before := counters[..];
    for k := 0 to counters.Length
      invariant forall j :: 0 <= j < k ==> counters[j] == Tallied(before, desc)[j]
      invariant forall j :: k <= j < counters.Length ==> counters[j] == before[j]
    {
      if Contains(desc, Keywords[k]) {
        counters[k] := counters[k] + 1;
      }
    }
  }
}
