/**
 Rules for URL paths (`common/urltemplate`): parsing a rule, splitting a path, and matching the two,
 segment by segment or, for rules without wildcards and templates, by comparing strings.
 */
module UrlTemplate {
  import opened Text

  datatype RulePathSegment = RulePathSegment(wildcard: bool, staticString: string, templateName: string)

  datatype PathRule = PathRule(segments: seq<RulePathSegment>, prefix: bool, allStatic: bool, staticPath: string)

  const SLASH := '/'

  // ---------- matching (match.go, path.go) ----------

  function WithoutLeadingSlash(path: string): string {
    if path != "" && path[0] == SLASH then path[1..] else path
  }

  function SplitPath(path: string): (seq<string>, bool) {
    var rest := WithoutLeadingSlash(path);
    (if rest == "" then [""] else Split(rest, SLASH), path != "" && path[0] == SLASH)
  }

  /** Nothing of a path is lost: its segments, and whether it begins with a slash, give it back. */
  lemma SplitPathLosesNothing(path: string)
    ensures var (segments, leading) := SplitPath(path);
      (if leading then "/" else "") + Join(segments, SLASH) == path
  {
    var rest := WithoutLeadingSlash(path);
    JoinSplit(rest, SLASH);
    assert Join([""], SLASH) == "";
  }

  predicate IsPathMatching(r: PathRule, path: string) {
    var rest := WithoutLeadingSlash(path);
    if r.allStatic then MatchStaticPath(r, rest)
    else SegmentsMatch(r, if rest == "" then [""] else Split(rest, SLASH))
  }

  predicate IsPathSegmentsMatching(r: PathRule, pathSegments: seq<string>) {
    if r.allStatic then MatchStaticPath(r, Join(pathSegments, SLASH)) else SegmentsMatch(r, pathSegments)
  }

  predicate SegmentsMatch(r: PathRule, pathSegments: seq<string>) {
    (if r.prefix then |r.segments| <= |pathSegments| else |r.segments| == |pathSegments|) &&
    MatchSegments(r.segments, pathSegments, 0)
  }

  predicate MatchStaticPath(r: PathRule, path: string) {
    if !r.prefix then path == r.staticPath
    else if r.staticPath == "" then true
    else r.staticPath <= path && (|path| == |r.staticPath| || path[|r.staticPath|] == SLASH)
  }

  /** The scan of matchSegments, from the i-th segment on. */
  predicate MatchSegments(segments: seq<RulePathSegment>, pathSegments: seq<string>, i: nat)
    requires i <= |segments| <= |pathSegments|
    decreases |segments| - i
  {
    i == |segments| ||
    ((segments[i].wildcard || segments[i].templateName != "" || segments[i].staticString == pathSegments[i]) &&
     MatchSegments(segments, pathSegments, i + 1))
  }

  // ---------- parsing (rule.go) ----------

  function ParseRuleTemplateString(s: string): string {
    var name := TrimSpace(s);
    if name == "" then "id" else name
  }

  predicate LooksTemplated(segment: string) {
    "{" <= segment && segment[|segment| - 1] == '}'
  }

  function ParsedSegment(segment: string): RulePathSegment {
    if segment == "*" then RulePathSegment(true, "", "")
    else if LooksTemplated(segment) then RulePathSegment(false, "", ParseRuleTemplateString(Inner(segment)))
    else RulePathSegment(false, segment, "")
  }

  /** What stands between the braces. */
  function Inner(segment: string): string
    requires LooksTemplated(segment)
  {
    segment[1..|segment| - 1]
  }

  predicate Literal(segment: string) {
    segment != "*" && !LooksTemplated(segment)
  }

  function ParsedRule(segments: seq<string>, prefix: bool): PathRule {
    var parsed := seq(|segments|, k requires 0 <= k < |segments| => ParsedSegment(segments[k]));
    var allStatic := forall k :: 0 <= k < |segments| ==> Literal(segments[k]);
    PathRule(parsed, prefix, allStatic, if allStatic then Join(segments, SLASH) else "")
  }

  /** The segments a rule text stands for. */
  function RuleSegments(rule: string): seq<string> {
    Split(WithoutLeadingSlash(rule), SLASH)
  }

  method ParseUserInputRuleString(userInputRule: string, prefix: bool) returns (rule: PathRule)
    ensures rule == ParsedRule(RuleSegments(userInputRule), prefix)
  {
    var segments := Split(userInputRule, SLASH);
    if "/" <= userInputRule {
      segments := segments[1..];
    }
    StripsOneSegment(userInputRule);
    var ruleSegments, allStatic := FillSegments(segments);
    ParsedRuleIs(segments, prefix, allStatic);
    rule := PathRule(ruleSegments[..], prefix, false, "");
    if allStatic {
      rule := rule.(allStatic := true, staticPath := Join(segments, SLASH));
    }
  }

  /** The loop of ParseUserInputRuleString. */
  method FillSegments(segments: seq<string>) returns (ruleSegments: array<RulePathSegment>, allStatic: bool)
    ensures ruleSegments[..] == ParsedRule(segments, false).segments
    ensures allStatic <==> AllLiteral(segments, |segments|)
  {
    ruleSegments := new RulePathSegment[|segments|](_ => RulePathSegment(false, "", ""));
    allStatic := true;
    ghost var parsed := ParsedRule(segments, false).segments;
    for i := 0 to |segments|
      invariant ruleSegments[..i] == parsed[..i]
      invariant allStatic <==> AllLiteral(segments, i)
    {
      var segment := segments[i];
      ghost var before := ruleSegments[..i];
      if segment == "*" {
        allStatic := false;
        ruleSegments[i] := RulePathSegment(true, "", "");
      } else if LooksTemplated(segment) {
        allStatic := false;
        var templatizationRule := Inner(segment);
        var templateName := ParseRuleTemplateString(templatizationRule);
        ruleSegments[i] := RulePathSegment(false, "", templateName);
      } else {
        ruleSegments[i] := RulePathSegment(false, segment, "");
      }
      assert ruleSegments[i] == ParsedSegment(segment);
      assert ruleSegments[..i + 1] == before + [ParsedSegment(segment)];
    }
    assert ruleSegments[..] == ruleSegments[..|segments|] == parsed[..|segments|] == parsed;
  }

  lemma ParsedRuleIs(segments: seq<string>, prefix: bool, allStatic: bool)
    requires allStatic <==> AllLiteral(segments, |segments|)
    ensures ParsedRule(segments, prefix) ==
              PathRule(ParsedRule(segments, prefix).segments, prefix, allStatic,
                if allStatic then Join(segments, SLASH) else "")
  {
  }

  ghost predicate AllLiteral(segments: seq<string>, n: nat)
    requires n <= |segments|
  {
    forall k :: 0 <= k < n ==> Literal(segments[k])
  }

  lemma StripsOneSegment(rule: string)
    ensures (if "/" <= rule then Split(rule, SLASH)[1..] else Split(rule, SLASH)) == RuleSegments(rule)
  {
  }

  // ---------- what matching means ----------

  /** A segment of a path fits a segment of a rule. */
  predicate Fits(segment: RulePathSegment, pathSegment: string) {
    segment.wildcard || segment.templateName != "" || segment.staticString == pathSegment
  }

  lemma {:induction false} ScanChecksAll(segments: seq<RulePathSegment>, pathSegments: seq<string>, i: nat)
    requires i <= |segments| <= |pathSegments|
    ensures MatchSegments(segments, pathSegments, i) <==>
        forall k :: i <= k < |segments| ==> Fits(segments[k], pathSegments[k])
    decreases |segments| - i
  {
    if i < |segments| {
      ScanChecksAll(segments, pathSegments, i + 1);
    }
  }

  /**
   A prefix rule matches a path iff the exact rule with the same segments matches the path cut off after
   some number of segments.
   */
  lemma PrefixMatchesSomeCut(r: PathRule, pathSegments: seq<string>)
    ensures SegmentsMatch(r.(prefix := true), pathSegments) <==>
              exists n :: 0 <= n <= |pathSegments| && SegmentsMatch(r.(prefix := false), pathSegments[..n])
  {
    var n := |r.segments|;
    if n <= |pathSegments| {
      ScanChecksAll(r.segments, pathSegments, 0);
      ScanChecksAll(r.segments, pathSegments[..n], 0);
      assert SegmentsMatch(r.(prefix := true), pathSegments) ==> SegmentsMatch(r.(prefix := false), pathSegments[..n]);
      forall m | 0 <= m <= |pathSegments| && SegmentsMatch(r.(prefix := false), pathSegments[..m]) ensures m == n { }
    }
  }

  /** The two entry points agree on every path, for every rule there can be. */
  lemma EntryPointsAgree(r: PathRule, path: string)
    ensures IsPathMatching(r, path) <==> IsPathSegmentsMatching(r, SplitPath(path).0)
  {
    JoinSplit(WithoutLeadingSlash(path), SLASH);
  }

  // ---------- the fast path ----------

  /** Segments that are all literal match exactly the paths that begin with them. */
  lemma LiteralSegmentsMatch(segments: seq<string>, prefix: bool, pathSegments: seq<string>)
    requires forall k :: 0 <= k < |segments| ==> Literal(segments[k])
    ensures SegmentsMatch(ParsedRule(segments, prefix), pathSegments) <==>
              if prefix then segments <= pathSegments else segments == pathSegments
  {
    var r := ParsedRule(segments, prefix);
    if |segments| <= |pathSegments| {
      ScanChecksAll(r.segments, pathSegments, 0);
      assert forall k :: 0 <= k < |segments| ==>
        (Fits(r.segments[k], pathSegments[k]) <==> segments[k] == pathSegments[k]);
    }
  }

  /**
   Comparing strings decides what matching segment by segment would, for every rule text without
   wildcards and templates and every path, except one family: the prefix rule of the empty text matches
   paths whose first segment is not empty.
   */
  lemma FastPathRefinesSegments(rule: string, prefix: bool, path: string)
    requires ParsedRule(RuleSegments(rule), prefix).allStatic
    ensures var r := ParsedRule(RuleSegments(rule), prefix);
      (MatchStaticPath(r, path) <==> SegmentsMatch(r, Split(path, SLASH))) <==>
      !(prefix && r.staticPath == "" && path != "" && path[0] != SLASH)
  {
    var segments := RuleSegments(rule);
    var r := ParsedRule(segments, prefix);
    LiteralSegmentsMatch(segments, prefix, Split(path, SLASH));
    JoinSplit(WithoutLeadingSlash(rule), SLASH);
    JoinSplit(path, SLASH);
    UnderIsPrefixOfParts(r.staticPath, path, SLASH);
  }

  /**
   What any rule text matches: the paths whose segments fit those of the rule one by one, all of them or,
   for a prefix rule, the first ones; and every path if the rule is a prefix rule of the empty text.
   */
  lemma WhatRulesMatch(rule: string, prefix: bool, path: string)
    ensures IsPathMatching(ParsedRule(RuleSegments(rule), prefix), path) <==>
              (prefix && WithoutLeadingSlash(rule) == "") ||
              SegmentsMatch(ParsedRule(RuleSegments(rule), prefix), SplitPath(path).0)
  {
    var r := ParsedRule(RuleSegments(rule), prefix);
    JoinSplit(WithoutLeadingSlash(rule), SLASH);
    if r.allStatic {
      assert r.staticPath == WithoutLeadingSlash(rule);
      FastPathRefinesSegments(rule, prefix, WithoutLeadingSlash(path));
    } else if WithoutLeadingSlash(rule) == "" {
      assert RuleSegments(rule) == [""] && Literal("");
    }
  }

  /** A path matched by a prefix rule still matches when it goes on. */
  lemma PrefixMatchesWhatFollows(r: PathRule, path: string, more: string)
    requires r.prefix && path != "" && IsPathMatching(r, path)
    ensures IsPathMatching(r, path + "/" + more)
  {
    var rest := WithoutLeadingSlash(path);
    assert WithoutLeadingSlash(path + "/" + more) == rest + "/" + more;
    if r.allStatic {
      if r.staticPath != "" && |rest| > |r.staticPath| {
        assert (rest + "/" + more)[|r.staticPath|] == rest[|r.staticPath|];
      }
    } else {
      var a, b := Split(rest, SLASH), Split(more, SLASH);
      SplitConcat(rest, more, SLASH);
      ScanChecksAll(r.segments, a, 0);
      ScanChecksAll(r.segments, a + b, 0);
    }
  }

  /** An exact rule without wildcards and templates matches its own text only, up to one leading slash. */
  lemma ExactLiteralMatchesItself(rule: string, path: string)
    requires ParsedRule(RuleSegments(rule), false).allStatic
    ensures IsPathMatching(ParsedRule(RuleSegments(rule), false), path) <==>
              WithoutLeadingSlash(path) == WithoutLeadingSlash(rule)
  {
    JoinSplit(WithoutLeadingSlash(rule), SLASH);
  }

  // ---------- rendering a rule ----------

  function Render(segment: RulePathSegment): string {
    if segment.wildcard then "*"
    else if segment.templateName != "" then "{" + segment.templateName + "}"
    else segment.staticString
  }

  function RenderRule(r: PathRule): string {
    "/" + Join(seq(|r.segments|, k requires 0 <= k < |r.segments| => Render(r.segments[k])), SLASH)
  }

  /** The segments parsing can produce. */
  predicate CanonicalSegment(s: RulePathSegment) {
    if s.wildcard then s == RulePathSegment(true, "", "")
    else if s.templateName != "" then s.staticString == "" && Trimmed(s.templateName) && SLASH !in s.templateName
    else Literal(s.staticString) && SLASH !in s.staticString
  }

  /** The rules parsing can produce. */
  predicate Canonical(r: PathRule) {
    && r.segments != [] && (forall k :: 0 <= k < |r.segments| ==> CanonicalSegment(r.segments[k]))
    && (r.allStatic <==> forall k :: 0 <= k < |r.segments| ==>
      !r.segments[k].wildcard && r.segments[k].templateName == "")
    && "/" + r.staticPath == if r.allStatic then RenderRule(r) else "/"
  }

  lemma ParsedSegmentIsCanonical(segment: string)
    requires SLASH !in segment
    ensures CanonicalSegment(ParsedSegment(segment))
    ensures Literal(segment) ==> Render(ParsedSegment(segment)) == segment
    ensures Literal(segment) <==> !ParsedSegment(segment).wildcard && ParsedSegment(segment).templateName == ""
  {
    if segment != "*" && LooksTemplated(segment) {
      TrimSpaceTrims(Inner(segment));
      assert forall c :: c in Inner(segment) ==> c in segment;
    }
  }

  lemma RenderedSegmentParses(s: RulePathSegment)
    requires CanonicalSegment(s)
    ensures SLASH !in Render(s) && ParsedSegment(Render(s)) == s
    ensures Literal(Render(s)) <==> !s.wildcard && s.templateName == ""
  {
  }

  /** Every text parses to a canonical rule. */
  lemma ParsingIsCanonical(rule: string, prefix: bool)
    ensures Canonical(ParsedRule(RuleSegments(rule), prefix))
  {
    var segments := RuleSegments(rule);
    var r := ParsedRule(segments, prefix);
    SplitHasNoSeparator(WithoutLeadingSlash(rule), SLASH);
    forall k | 0 <= k < |segments|
      ensures CanonicalSegment(r.segments[k]) && (Literal(segments[k]) ==> Render(r.segments[k]) == segments[k])
      ensures Literal(segments[k]) <==> !r.segments[k].wildcard && r.segments[k].templateName == ""
    {
      ParsedSegmentIsCanonical(segments[k]);
    }
    if r.allStatic {
      assert seq(|r.segments|, k requires 0 <= k < |r.segments| => Render(r.segments[k])) == segments;
    }
  }

  /** Rendering a rule and parsing the text gives the rule back, for exactly the canonical rules. */
  lemma ParseInvertsRender(r: PathRule)
    ensures ParsedRule(RuleSegments(RenderRule(r)), r.prefix) == r <==> Canonical(r)
  {
    ParsingIsCanonical(RenderRule(r), r.prefix);
    if Canonical(r) {
      CanonicalRuleParses(r);
    }
  }

  lemma CanonicalRuleParses(r: PathRule)
    requires Canonical(r)
    ensures ParsedRule(RuleSegments(RenderRule(r)), r.prefix) == r
  {
    var texts := seq(|r.segments|, k requires 0 <= k < |r.segments| => Render(r.segments[k]));
    forall k | 0 <= k < |texts|
      ensures SLASH !in texts[k] && ParsedSegment(texts[k]) == r.segments[k]
      ensures Literal(texts[k]) <==> !r.segments[k].wildcard && r.segments[k].templateName == ""
    {
      RenderedSegmentParses(r.segments[k]);
    }
    SplitJoin(texts, SLASH);
    assert RuleSegments(RenderRule(r)) == texts;
    TextsParse(r, texts);
  }

  lemma TextsParse(r: PathRule, texts: seq<string>)
    requires Canonical(r) && |texts| == |r.segments|
    requires forall k :: 0 <= k < |texts| ==> texts[k] == Render(r.segments[k])
    requires forall k :: 0 <= k < |texts| ==> ParsedSegment(texts[k]) == r.segments[k]
    requires forall k :: 0 <= k < |texts| ==>
               (Literal(texts[k]) <==> !r.segments[k].wildcard && r.segments[k].templateName == "")
    ensures ParsedRule(texts, r.prefix) == r
  {
    assert texts == seq(|r.segments|, k requires 0 <= k < |r.segments| => Render(r.segments[k]));
    assert ParsedRule(texts, r.prefix).segments == r.segments;
    assert ("/" + r.staticPath)[1..] == r.staticPath && RenderRule(r)[1..] == Join(texts, SLASH) && "/"[1..] == "";
  }

  /** So a rule means the same after being written out and read back. */
  lemma RereadRuleMatchesTheSame(rule: string, prefix: bool, path: string)
    ensures var r := ParsedRule(RuleSegments(rule), prefix);
      IsPathMatching(ParsedRule(RuleSegments(RenderRule(r)), prefix), path) <==> IsPathMatching(r, path)
  {
    ParsingIsCanonical(rule, prefix);
    ParseInvertsRender(ParsedRule(RuleSegments(rule), prefix));
  }
}
