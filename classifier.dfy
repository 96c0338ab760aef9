/**
  The keyword classifier `predict_incident_type` (app.py:44-54) and an
  independent reference reading of it: an ordered table of keyword rules in
  which the first rule with a matching keyword decides the category.
 */
module Classifier {
  import opened Text

  /** The four category tags the classifier can produce. */
  datatype IncidentType = HighLatency | PacketLoss | ServiceUnreachable | Unknown

  /** The string the source uses for each tag. */
  function Label(t: IncidentType): string {
    match t
    case HighLatency => "high latency"
    case PacketLoss => "packet loss"
    case ServiceUnreachable => "service unreachable"
    case Unknown => "unknown"
  }

  /** Different tags are spelled differently. */
  lemma LabelInjective(t: IncidentType, u: IncidentType)
    ensures Label(t) == Label(u) <==> t == u
  {
  }

  /**
    `predict_incident_type`: lower-case, then an if/elif chain of substring
    tests.  The chain computes exactly what the rule table below prescribes
    for the lower-cased text.
   */
  function PredictIncidentType(incidentDescription: string): (t: IncidentType)
    ensures t == ApplyRules(Rules, Lower(incidentDescription))
  {
    var d := Lower(incidentDescription);
    MatchesPair("latency", "slow", HighLatency, d);
    MatchesPair("packet", "drop", PacketLoss, d);
    MatchesPair("unreachable", "down", ServiceUnreachable, d);
    if Contains(d, "latency") || Contains(d, "slow") then
      assert FirstMatch(Rules, d, 0);
      HighLatency
    else if Contains(d, "packet") || Contains(d, "drop") then
      assert FirstMatch(Rules, d, 1);
      PacketLoss
    else if Contains(d, "unreachable") || Contains(d, "down") then
      assert FirstMatch(Rules, d, 2);
      ServiceUnreachable
    else
      Unknown
  }

  // ---------------------------------------------------------------------------
  // Reference definition: an ordered rule table, first match wins.

  datatype Rule = Rule(keywords: seq<string>, tag: IncidentType)

  /** The three rules of app.py:47-52, in the order the source tests them. */
  const Rules: seq<Rule> := [
    Rule(["latency", "slow"], HighLatency),
    Rule(["packet", "drop"], PacketLoss),
    Rule(["unreachable", "down"], ServiceUnreachable)
  ]

  /** Some keyword of the rule occurs in the text. */
  predicate Matches(rule: Rule, text: string) {
    AnyOccurs(text, rule.keywords)
  }

  /** Some word of `words` is a substring of `text`. */
  predicate AnyOccurs(text: string, words: seq<string>) {
    |words| > 0 && (Contains(text, words[0]) || AnyOccurs(text, words[1..]))
  }

  /** Rule `i` matches and no earlier rule does. */
  predicate FirstMatch(rules: seq<Rule>, text: string, i: int) {
    0 <= i < |rules| && Matches(rules[i], text)
    && forall j :: 0 <= j < i ==> !Matches(rules[j], text)
  }

  /** Runs the table: the tag of the first matching rule, `Unknown` if none matches. */
  function ApplyRules(rules: seq<Rule>, text: string): (t: IncidentType)
    ensures (forall i :: 0 <= i < |rules| ==> !Matches(rules[i], text)) ==> t == Unknown
    ensures forall i :: FirstMatch(rules, text, i) ==> t == rules[i].tag
  {
    if rules == [] then
      Unknown
    else if Matches(rules[0], text) then
      rules[0].tag
    else
      var rest := rules[1..];
      forall i | FirstMatch(rules, text, i) ensures FirstMatch(rest, text, i - 1) {
        assert rules[i] == rest[i - 1];
        forall j | 0 <= j < i - 1 ensures !Matches(rest[j], text) {
          assert rest[j] == rules[j + 1];
        }
      }
      ApplyRules(rest, text)
  }

  lemma MatchesPair(a: string, b: string, tag: IncidentType, text: string)
    ensures Matches(Rule([a, b], tag), text) <==> Contains(text, a) || Contains(text, b)
  {
    assert [a, b][1..] == [b];
    assert [b][1..] == [];
    assert AnyOccurs(text, [b]) == Contains(text, b);
  }

  /**
    Rule `i` decides the category exactly when it is the first rule with a
    keyword in the lower-cased text: the rules apply in the written order.
   */
  lemma PredictIsFirstMatchingRule(s: string, i: int)
    requires 0 <= i < |Rules|
    ensures PredictIncidentType(s) == Rules[i].tag <==> FirstMatch(Rules, Lower(s), i)
  {
  }

  /** Index of the first matching rule at or before a matching one. */
  function FirstOf(rules: seq<Rule>, text: string, j: int): (k: int)
    requires 0 <= j < |rules| && Matches(rules[j], text)
    ensures 0 <= k <= j && FirstMatch(rules, text, k)
    decreases j
  {
    if forall i :: 0 <= i < j ==> !Matches(rules[i], text) then
      j
    else
      var i :| 0 <= i < j && Matches(rules[i], text);
      FirstOf(rules, text, i)
  }

  /** The result is `Unknown` exactly when no rule's keyword occurs in the lower-cased text. */
  lemma PredictUnknownIffNoKeyword(s: string)
    ensures PredictIncidentType(s) == Unknown
            <==> forall i :: 0 <= i < |Rules| ==> !Matches(Rules[i], Lower(s))
  {
    var d := Lower(s);
    if exists j :: 0 <= j < |Rules| && Matches(Rules[j], d) {
      var j :| 0 <= j < |Rules| && Matches(Rules[j], d);
      var k := FirstOf(Rules, d, j);
      assert PredictIncidentType(s) == Rules[k].tag;
    }
  }

  /** Classification ignores case: lower-casing the input first changes nothing. */
  lemma PredictCaseInsensitive(s: string)
    ensures PredictIncidentType(Lower(s)) == PredictIncidentType(s)
  {
    LowerIdempotent(s);
  }

  /**
    A latency keyword, written in any case anywhere in the text, makes the
    result `HighLatency` whatever else the text contains.
   */
  lemma LatencyKeywordTakesPrecedence(before: string, keyword: string, after: string)
    requires Lower(keyword) == "latency" || Lower(keyword) == "slow"
    ensures PredictIncidentType(before + keyword + after) == HighLatency
  {
    LowerAppend(before + keyword, after);
    LowerAppend(before, keyword);
    ContainsInfix(Lower(before), Lower(keyword), Lower(after));
  }

  /** Every one of the four tags is produced for some description. */
  lemma EveryTagIsPredicted(t: IncidentType)
    ensures exists s :: PredictIncidentType(s) == t
  {
    match t
    case HighLatency =>
      assert Lower("slow") == "slow";
      assert PredictIncidentType("slow") == HighLatency;
    case PacketLoss =>
      assert Lower("drop") == "drop";
      assert !Contains("drop", "slow") by {
        assert "drop"[..4][0] != "slow"[0];
      }
      assert PredictIncidentType("drop") == PacketLoss;
    case ServiceUnreachable =>
      assert Lower("down") == "down";
      assert !Contains("down", "slow") by {
        assert "down"[..4][0] != "slow"[0];
      }
      assert !Contains("down", "drop") by {
        assert "down"[..4][1] != "drop"[1];
      }
      assert PredictIncidentType("down") == ServiceUnreachable;
    case Unknown =>
      assert Lower("") == "";
      assert PredictIncidentType("") == Unknown;
  }
}
