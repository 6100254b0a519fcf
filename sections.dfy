/**
 * Section extraction from the plain text of a 10-K filing
 * (`_PATTERNS` and `extract_sections` in ingestion/edgar_ingestor/utils.py).
 *
 * Each of the three patterns is a fixed marker rule: find the first start
 * marker, then the first end marker after it; the section is the text in
 * between, whitespace-stripped. Markers are matched case-insensitively and a
 * `\s+` in a pattern matches any run of whitespace.
 */
module Sections {
  import opened Wrappers
  import opened Dicts

  /** Python's `str.isspace()`: what both `\s` and `str.strip()` treat as whitespace. */
  predicate IsSpace(c: char) {
    || '\t' <= c <= '\r'
    || '\U{1C}' <= c <= ' '
    || c == '\U{85}' || c == '\U{A0}' || c == '\U{1680}'
    || '\U{2000}' <= c <= '\U{200A}'
    || c == '\U{2028}' || c == '\U{2029}' || c == '\U{202F}' || c == '\U{205F}' || c == '\U{3000}'
  }

  /**
   * The letter a character stands for under `re.IGNORECASE`: ASCII capitals
   * fold to lower case, and so do the four non-ASCII characters that Python's
   * engine equates with an ASCII letter (dotted and dotless i, long s, the
   * Kelvin sign).
   */
  function Fold(c: char): char {
    if 'A' <= c <= 'Z' then (c as int + 32) as char
    else if c == '\U{130}' || c == '\U{131}' then 'i'
    else if c == '\U{17F}' then 's'
    else if c == '\U{212A}' then 'k'
    else c
  }

  // ---------------------------------------------------------------------------
  // str.strip()

  /** The end of the whitespace run that starts at `i`. */
  function SpaceRunEnd(s: string, i: nat): (j: nat)
    requires i <= |s|
    ensures i <= j <= |s|
    ensures forall k :: i <= k < j ==> IsSpace(s[k])
    ensures j == |s| || !IsSpace(s[j])
    decreases |s| - i
  {
    if i < |s| && IsSpace(s[i]) then SpaceRunEnd(s, i + 1) else i
  }

  /** The start of the whitespace run that ends at `b`, looking no further left than `a`. */
  function SpaceRunStart(s: string, a: nat, b: nat): (j: nat)
    requires a <= b <= |s|
    ensures a <= j <= b
    ensures forall k :: j <= k < b ==> IsSpace(s[k])
    ensures j == a || !IsSpace(s[j - 1])
    decreases b - a
  {
    if a < b && IsSpace(s[b - 1]) then SpaceRunStart(s, a, b - 1) else b
  }

  predicate AllSpace(s: string) {
    forall k :: 0 <= k < |s| ==> IsSpace(s[k])
  }

  /** Neither end of `s` is whitespace. */
  predicate Trimmed(s: string) {
    s == [] || (!IsSpace(s[0]) && !IsSpace(s[|s| - 1]))
  }

  /**
   * `s.strip()`: the result is one contiguous piece of `s`, everything of `s`
   * outside it is whitespace, and it neither starts nor ends with whitespace.
   */
  function Strip(s: string): (r: string)
    ensures Trimmed(r)
    ensures var a := SpaceRunEnd(s, 0);
      && a + |r| <= |s| && r == s[a..a + |r|]
      && (forall k :: 0 <= k < a ==> IsSpace(s[k]))
      && (forall k :: a + |r| <= k < |s| ==> IsSpace(s[k]))
  {
    var a := SpaceRunEnd(s, 0);
    s[a..SpaceRunStart(s, a, |s|)]
  }

  /** Strip is determined by its contract: padding a trimmed text with whitespace and stripping gives it back. */
  lemma StripOfPadded(w1: string, t: string, w2: string)
    requires AllSpace(w1) && AllSpace(w2) && Trimmed(t)
    ensures Strip(w1 + t + w2) == t
  {
    var s := w1 + t + w2;
    var r := Strip(s);
    var a := SpaceRunEnd(s, 0);
    if t == [] {
      assert AllSpace(s) by {
        forall k | 0 <= k < |s| ensures IsSpace(s[k]) {
          if k < |w1| { assert s[k] == w1[k]; } else { assert s[k] == w2[k - |w1|]; }
        }
      }
      assert a == |s|;
    } else {
      assert s[|w1|] == t[0];
      assert s[|w1| + |t| - 1] == t[|t| - 1];
      assert a == |w1| by {
        forall k | 0 <= k < |w1| ensures IsSpace(s[k]) { assert s[k] == w1[k]; }
      }
      assert s[|w1|..|w1| + |t|] == t;
    }
  }

  /** Stripping twice is stripping once. */
  lemma StripIdempotent(s: string)
    ensures Strip(Strip(s)) == Strip(s)
  {
    StripOfPadded([], Strip(s), []);
    assert [] + Strip(s) + [] == Strip(s);
  }

  // ---------------------------------------------------------------------------
  // Markers

  /** One piece of a marker pattern: literal text, or `\s+`. */
  datatype Token = Word(w: string) | Spaces

  type Marker = seq<Token>

  /** The literal `w` occurs at `i`, ignoring case. */
  predicate WordAt(text: string, i: nat, w: string) {
    i + |w| <= |text| && forall k :: 0 <= k < |w| ==> Fold(text[i + k]) == Fold(w[k])
  }

  /**
   * Where a match of marker `m` that starts at `i` ends, if there is one.
   * `Spaces` takes the whole whitespace run; since every word of the three
   * patterns that follows a `\s+` starts with a non-space character, this is
   * the only way the regular expression can match there.
   */
  function MatchAt(text: string, i: nat, m: Marker): (r: Option<nat>)
    requires i <= |text|
    ensures r.Some? ==> i <= r.value <= |text|
    decreases |m|
  {
    if m == [] then Some(i)
    else match m[0]
      case Word(w) => if WordAt(text, i, w) then MatchAt(text, i + |w|, m[1..]) else None
      case Spaces => if i < |text| && IsSpace(text[i]) then MatchAt(text, SpaceRunEnd(text, i), m[1..]) else None
  }

  /** The first match of `m` that starts at or after `from`, as (start, end). */
  function Find(text: string, from: nat, m: Marker): (r: Option<(nat, nat)>)
    requires from <= |text|
    ensures r.Some? ==> from <= r.value.0 <= |text| && MatchAt(text, r.value.0, m) == Some(r.value.1)
    ensures r.Some? ==> forall q :: from <= q < r.value.0 ==> MatchAt(text, q, m).None?
    ensures r.None? ==> forall q :: from <= q <= |text| ==> MatchAt(text, q, m).None?
    decreases |text| - from
  {
    match MatchAt(text, from, m)
    case Some(e) => Some((from, e))
    case None => if from == |text| then None else Find(text, from + 1, m)
  }

  /** `Find` returns the first match: any match with no match before it is the one found. */
  lemma FindIsFirst(text: string, from: nat, m: Marker, p: nat)
    requires from <= p <= |text| && MatchAt(text, p, m).Some?
    requires forall q :: from <= q < p ==> MatchAt(text, q, m).None?
    ensures Find(text, from, m) == Some((p, MatchAt(text, p, m).value))
  {
  }

  // ---------------------------------------------------------------------------
  // The three rules of `_PATTERNS`

  /**
   * A rule: the anchors are found one after the other, each after the end of
   * the previous one; the section starts where the last anchor ends and runs up
   * to (not including) the first `stop` marker after that.
   */
  datatype Rule = Rule(key: string, anchors: seq<Marker>, stop: Marker)

  const BusinessStart: Marker := [Word("Item"), Spaces, Word("1."), Spaces, Word("Business")]
  const BusinessStop: Marker := [Word("Item"), Spaces, Word("1A.")]
  const RiskStart: Marker := [Word("Item"), Spaces, Word("1A."), Spaces, Word("Risk Factors")]
  const RiskStop: Marker := [Word("Item"), Spaces, Word("1B.")]
  const MdnaStart: Marker := [Word("Item"), Spaces, Word("7."), Spaces, Word("Management")]
  const MdnaVia: Marker := [Word("Discussion")]
  const MdnaStop: Marker := [Word("Item"), Spaces, Word("7A.")]

  const Business := Rule("business", [BusinessStart], BusinessStop)
  const RiskFactors := Rule("risk_factors", [RiskStart], RiskStop)
  const Mdna := Rule("mdna", [MdnaStart, MdnaVia], MdnaStop)

  /** `_PATTERNS`, in its insertion order. */
  const Patterns: seq<Rule> := [Business, RiskFactors, Mdna]

  /** Where the last anchor ends, each anchor searched from the end of the one before. */
  function AfterAnchors(text: string, from: nat, anchors: seq<Marker>): (r: Option<nat>)
    requires from <= |text|
    ensures r.Some? ==> from <= r.value <= |text|
    decreases |anchors|
  {
    if anchors == [] then Some(from)
    else match Find(text, from, anchors[0])
      case None => None
      case Some((_, e)) => AfterAnchors(text, e, anchors[1..])
  }

  /** `pattern.search(text)`: the span of group 1, if the pattern matches. */
  function Search(text: string, rule: Rule): (r: Option<(nat, nat)>)
    ensures r.Some? ==> r.value.0 <= r.value.1 <= |text|
  {
    match AfterAnchors(text, 0, rule.anchors)
    case None => None
    case Some(b) =>
      match Find(text, b, rule.stop)
      case None => None
      case Some((j, _)) => Some((b, j))
  }

  /** `m.group(1).strip()` when the rule matches. */
  function Section(text: string, rule: Rule): Option<string> {
    match Search(text, rule)
    case None => None
    case Some((b, j)) => Some(Strip(text[b..j]))
  }

  /** Each rule's key with its section, if the rule matches. */
  function Findings(text: string, rules: seq<Rule>): (f: seq<(string, Option<string>)>)
    ensures |f| == |rules|
    ensures forall i :: 0 <= i < |rules| ==> f[i] == (rules[i].key, Section(text, rules[i]))
  {
    seq(|rules|, i requires 0 <= i < |rules| => (rules[i].key, Section(text, rules[i])))
  }

  /** The dictionary `if m: sections[key] = value` builds: the present values, in order. */
  function Collect(found: seq<(string, Option<string>)>): Dict<string> {
    if found == [] then []
    else
      var rest := Collect(found[..|found| - 1]);
      var (k, v) := found[|found| - 1];
      if v.Some? then rest + [(k, v.value)] else rest
  }

  /** What `extract_sections` returns for plain text `text`. */
  function SectionsOf(text: string): Dict<string> {
    Collect(Findings(text, Patterns))
  }

  /** The keys `Collect` keeps come from its input. */
  lemma {:induction false} CollectKeysFrom(found: seq<(string, Option<string>)>)
    ensures forall k :: k in Keys(Collect(found)) ==> exists i :: 0 <= i < |found| && found[i].0 == k
  {
    if found != [] {
      var init := found[..|found| - 1];
      CollectKeysFrom(init);
      var (k, v) := found[|found| - 1];
      if v.Some? { KeysAppend(Collect(init), k, v.value); }
      forall k' | k' in Keys(Collect(found))
        ensures exists i :: 0 <= i < |found| && found[i].0 == k'
      {
        if k' in Keys(Collect(init)) {
          var i :| 0 <= i < |init| && init[i].0 == k';
          assert found[i].0 == k';
        } else {
          assert found[|found| - 1].0 == k';
        }
      }
    }
  }

  /** `Collect` keeps only values of its input: if all of those are trimmed, so is every value it keeps. */
  lemma {:induction false} CollectKeepsTrimmed(found: seq<(string, Option<string>)>)
    requires forall j :: 0 <= j < |found| && found[j].1.Some? ==> Trimmed(found[j].1.value)
    ensures forall i :: 0 <= i < |Collect(found)| ==> Trimmed(Collect(found)[i].1)
  {
    if found != [] {
      var init := found[..|found| - 1];
      CollectKeepsTrimmed(init);
    }
  }

  lemma CollectNext(found: seq<(string, Option<string>)>, n: nat)
    requires n < |found|
    ensures Collect(found[..n + 1]) ==
      if found[n].1.Some? then Collect(found[..n]) + [(found[n].0, found[n].1.value)] else Collect(found[..n])
  {
    assert found[..n + 1][..n] == found[..n];
  }

  /** One more finding whose key is new: its key joins the end if it is present, holding its value. */
  lemma CollectStep(found: seq<(string, Option<string>)>, n: nat)
    requires n < |found|
    requires found[n].0 !in Keys(Collect(found[..n]))
    ensures Keys(Collect(found[..n + 1])) == Keys(Collect(found[..n])) + (if found[n].1.Some? then [found[n].0] else [])
    ensures Get(Collect(found[..n + 1]), found[n].0) == found[n].1
  {
    CollectNext(found, n);
    if found[n].1.Some? {
      PutFresh(Collect(found[..n]), found[n].0, found[n].1.value);
    }
  }

  /** One more finding leaves every other key as it was. */
  lemma CollectOther(found: seq<(string, Option<string>)>, n: nat, k: string)
    requires n < |found| && k != found[n].0
    ensures Get(Collect(found[..n + 1]), k) == Get(Collect(found[..n]), k)
  {
    CollectNext(found, n);
    if found[n].1.Some? {
      GetAppendOther(Collect(found[..n]), found[n].0, found[n].1.value, k);
    }
  }

  /** With three distinct keys, each finding's key is new to the findings before it. */
  lemma CollectPrefixes(found: seq<(string, Option<string>)>)
    requires |found| == 3
    requires found[0].0 != found[1].0 && found[0].0 != found[2].0 && found[1].0 != found[2].0
    ensures Collect(found[..0]) == []
    ensures forall n :: 0 <= n < 3 ==> found[n].0 !in Keys(Collect(found[..n]))
  {
    assert found[..0] == [];
    CollectKeysFrom(found[..1]);
    CollectKeysFrom(found[..2]);
  }

  /** Collecting three findings with distinct keys: the keys of the present ones, in order. */
  lemma CollectThreeKeys(found: seq<(string, Option<string>)>)
    requires |found| == 3
    requires found[0].0 != found[1].0 && found[0].0 != found[2].0 && found[1].0 != found[2].0
    ensures Keys(Collect(found)) ==
      (if found[0].1.Some? then [found[0].0] else [])
      + (if found[1].1.Some? then [found[1].0] else [])
      + (if found[2].1.Some? then [found[2].0] else [])
  {
    CollectPrefixes(found);
    CollectStep(found, 0);
    CollectStep(found, 1);
    CollectStep(found, 2);
    assert found[..3] == found;
  }

  /** Collecting three findings with distinct keys: the `i`-th key holds its finding. */
  lemma CollectValueAt(found: seq<(string, Option<string>)>, i: nat)
    requires |found| == 3 && i < 3
    requires found[0].0 != found[1].0 && found[0].0 != found[2].0 && found[1].0 != found[2].0
    ensures Get(Collect(found), found[i].0) == found[i].1
  {
    CollectPrefixes(found);
    CollectStep(found, i);
    if i < 1 { CollectOther(found, 1, found[i].0); }
    if i < 2 { CollectOther(found, 2, found[i].0); }
    assert found[..3] == found;
  }

  /** Collecting three findings with distinct keys: each key holds its finding. */
  lemma CollectThreeValues(found: seq<(string, Option<string>)>)
    requires |found| == 3
    requires found[0].0 != found[1].0 && found[0].0 != found[2].0 && found[1].0 != found[2].0
    ensures forall i :: 0 <= i < 3 ==> Get(Collect(found), found[i].0) == found[i].1
  {
    CollectValueAt(found, 0);
    CollectValueAt(found, 1);
    CollectValueAt(found, 2);
  }

  /** Collecting three findings: no other key is present. */
  lemma CollectThreeOthers(found: seq<(string, Option<string>)>)
    requires |found| == 3
    ensures forall k :: k != found[0].0 && k != found[1].0 && k != found[2].0 ==> Get(Collect(found), k).None?
  {
    CollectKeysFrom(found);
    forall k | k != found[0].0 && k != found[1].0 && k != found[2].0 ensures k !in Keys(Collect(found)) {
      if k in Keys(Collect(found)) {
        var i :| 0 <= i < |found| && found[i].0 == k;
      }
    }
  }

  /** Appending a key that is not yet present is what `d[k] = v` does. */
  lemma PutFresh(d: Dict<string>, k: string, v: string)
    requires k !in Keys(d)
    ensures Put(d, k, v) == d + [(k, v)]
  {
    if d != [] {
      assert d[0].0 in Keys(d);
      PutFresh(d[1..], k, v);
      assert d == [d[0]] + d[1..];
    }
  }

  /**
   * `extract_sections`: loop over `_PATTERNS` in order and, for each pattern
   * that matches, set `sections[key]` to its stripped group.
   */
  method ExtractSections(text: string) returns (sections: Dict<string>)
    ensures sections == SectionsOf(text)
  {
    ghost var found := Findings(text, Patterns);
    CollectPrefixes(found);
    sections := [];
    for n := 0 to |Patterns|
      invariant sections == Collect(found[..n])
    {
      var rule := Patterns[n];
      CollectNext(found, n);
      assert found[n] == (rule.key, Section(text, rule));
      var m := Search(text, rule);
      if m.Some? {
        var (b, j) := m.value;
        PutFresh(sections, rule.key, Strip(text[b..j]));
        sections := Put(sections, rule.key, Strip(text[b..j]));
      }
    }
    assert found[..|Patterns|] == found;
  }

  // ---------------------------------------------------------------------------
  // What `extract_sections` returns

  /** The result's keys: those of the rules that match, in the fixed order business, risk_factors, mdna. */
  lemma SectionKeys(text: string)
    ensures Keys(SectionsOf(text)) ==
      (if Section(text, Business).Some? then ["business"] else [])
      + (if Section(text, RiskFactors).Some? then ["risk_factors"] else [])
      + (if Section(text, Mdna).Some? then ["mdna"] else [])
  {
    CollectThreeKeys(Findings(text, Patterns));
  }

  /** Each key holds the stripped section of its rule, and is absent exactly when the rule does not match. */
  lemma SectionValues(text: string)
    ensures Get(SectionsOf(text), "business") == Section(text, Business)
    ensures Get(SectionsOf(text), "risk_factors") == Section(text, RiskFactors)
    ensures Get(SectionsOf(text), "mdna") == Section(text, Mdna)
    ensures forall k :: k != "business" && k != "risk_factors" && k != "mdna" ==> Get(SectionsOf(text), k).None?
  {
    var f := Findings(text, Patterns);
    CollectThreeValues(f);
    CollectThreeOthers(f);
    assert f[0].0 == "business" && f[1].0 == "risk_factors" && f[2].0 == "mdna";
  }

  /** No extracted value starts or ends with whitespace. */
  lemma SectionsTrimmed(text: string)
    ensures forall i :: 0 <= i < |SectionsOf(text)| ==> Trimmed(SectionsOf(text)[i].1)
  {
    CollectKeepsTrimmed(Findings(text, Patterns));
  }

  /** `p` is the first position at or after `from` where `m` matches. */
  predicate FirstAt(text: string, m: Marker, from: nat, p: nat) {
    && from <= p <= |text| && MatchAt(text, p, m).Some?
    && forall q :: from <= q < p ==> MatchAt(text, q, m).None?
  }

  /** No match of `m` starts at or after `from`. */
  predicate NoneFrom(text: string, m: Marker, from: nat)
    requires from <= |text|
  {
    forall q :: from <= q <= |text| ==> MatchAt(text, q, m).None?
  }

  /** Where the match of `m` at `p` ends. */
  function EndAt(text: string, m: Marker, p: nat): nat
    requires p <= |text| && MatchAt(text, p, m).Some?
  {
    MatchAt(text, p, m).value
  }

  lemma SearchOneAnchor(text: string, rule: Rule, p: nat, j: nat)
    requires |rule.anchors| == 1
    requires FirstAt(text, rule.anchors[0], 0, p)
    requires FirstAt(text, rule.stop, EndAt(text, rule.anchors[0], p), j)
    ensures Search(text, rule) == Some((EndAt(text, rule.anchors[0], p), j))
  {
    FindIsFirst(text, 0, rule.anchors[0], p);
    var e := EndAt(text, rule.anchors[0], p);
    FindIsFirst(text, e, rule.stop, j);
    assert rule.anchors[1..] == [];
    assert AfterAnchors(text, e, rule.anchors[1..]) == Some(e);
    assert AfterAnchors(text, 0, rule.anchors) == Some(e);
  }

  lemma SearchNoFirstAnchor(text: string, rule: Rule)
    requires |rule.anchors| >= 1 && NoneFrom(text, rule.anchors[0], 0)
    ensures Search(text, rule).None?
  {
  }

  lemma SearchOneAnchorNoStop(text: string, rule: Rule, p: nat)
    requires |rule.anchors| == 1
    requires FirstAt(text, rule.anchors[0], 0, p)
    requires NoneFrom(text, rule.stop, EndAt(text, rule.anchors[0], p))
    ensures Search(text, rule).None?
  {
    FindIsFirst(text, 0, rule.anchors[0], p);
    assert rule.anchors[1..] == [];
  }

  lemma SearchTwoAnchors(text: string, rule: Rule, p: nat, d: nat, j: nat)
    requires |rule.anchors| == 2
    requires FirstAt(text, rule.anchors[0], 0, p)
    requires FirstAt(text, rule.anchors[1], EndAt(text, rule.anchors[0], p), d)
    requires FirstAt(text, rule.stop, EndAt(text, rule.anchors[1], d), j)
    ensures Search(text, rule) == Some((EndAt(text, rule.anchors[1], d), j))
  {
    var e := EndAt(text, rule.anchors[0], p);
    var f := EndAt(text, rule.anchors[1], d);
    FindIsFirst(text, 0, rule.anchors[0], p);
    FindIsFirst(text, e, rule.anchors[1], d);
    FindIsFirst(text, f, rule.stop, j);
    var rest := rule.anchors[1..];
    assert rest[0] == rule.anchors[1];
    assert rest[1..] == [];
    assert AfterAnchors(text, f, rest[1..]) == Some(f);
    assert AfterAnchors(text, e, rest) == Some(f);
    assert AfterAnchors(text, 0, rule.anchors) == Some(f);
  }

  lemma SearchTwoAnchorsNoSecond(text: string, rule: Rule, p: nat)
    requires |rule.anchors| == 2
    requires FirstAt(text, rule.anchors[0], 0, p)
    requires NoneFrom(text, rule.anchors[1], EndAt(text, rule.anchors[0], p))
    ensures Search(text, rule).None?
  {
    var e := EndAt(text, rule.anchors[0], p);
    FindIsFirst(text, 0, rule.anchors[0], p);
    var rest := rule.anchors[1..];
    assert rest[0] == rule.anchors[1];
    assert AfterAnchors(text, e, rest).None?;
    assert AfterAnchors(text, 0, rule.anchors).None?;
  }

  lemma SearchTwoAnchorsNoStop(text: string, rule: Rule, p: nat, d: nat)
    requires |rule.anchors| == 2
    requires FirstAt(text, rule.anchors[0], 0, p)
    requires FirstAt(text, rule.anchors[1], EndAt(text, rule.anchors[0], p), d)
    requires NoneFrom(text, rule.stop, EndAt(text, rule.anchors[1], d))
    ensures Search(text, rule).None?
  {
    var e := EndAt(text, rule.anchors[0], p);
    var f := EndAt(text, rule.anchors[1], d);
    FindIsFirst(text, 0, rule.anchors[0], p);
    FindIsFirst(text, e, rule.anchors[1], d);
    var rest := rule.anchors[1..];
    assert rest[0] == rule.anchors[1];
    assert rest[1..] == [];
    assert AfterAnchors(text, f, rest[1..]) == Some(f);
    assert AfterAnchors(text, e, rest) == Some(f);
    assert AfterAnchors(text, 0, rule.anchors) == Some(f);
  }

  /**
   * `business`: after the first "Item 1. Business" marker, ending at `e`, the
   * first "Item 1A." marker starts at `j`; the value is the text between them,
   * stripped.
   */
  lemma BusinessBetween(text: string, p: nat, j: nat)
    requires FirstAt(text, BusinessStart, 0, p)
    requires FirstAt(text, BusinessStop, EndAt(text, BusinessStart, p), j)
    ensures Get(SectionsOf(text), "business") == Some(Strip(text[EndAt(text, BusinessStart, p)..j]))
  {
    SectionValues(text);
    SearchOneAnchor(text, Business, p, j);
  }

  /** `business` is absent when there is no "Item 1. Business" marker. */
  lemma BusinessWithoutStart(text: string)
    requires NoneFrom(text, BusinessStart, 0)
    ensures "business" !in Keys(SectionsOf(text))
  {
    SectionValues(text);
    SearchNoFirstAnchor(text, Business);
  }

  /** `business` is absent when no "Item 1A." follows the first "Item 1. Business". */
  lemma BusinessWithoutStop(text: string, p: nat)
    requires FirstAt(text, BusinessStart, 0, p)
    requires NoneFrom(text, BusinessStop, EndAt(text, BusinessStart, p))
    ensures "business" !in Keys(SectionsOf(text))
  {
    SectionValues(text);
    SearchOneAnchorNoStop(text, Business, p);
  }

  /** `risk_factors`: between the first "Item 1A. Risk Factors" and the first "Item 1B." after it, stripped. */
  lemma RiskFactorsBetween(text: string, p: nat, j: nat)
    requires FirstAt(text, RiskStart, 0, p)
    requires FirstAt(text, RiskStop, EndAt(text, RiskStart, p), j)
    ensures Get(SectionsOf(text), "risk_factors") == Some(Strip(text[EndAt(text, RiskStart, p)..j]))
  {
    SectionValues(text);
    SearchOneAnchor(text, RiskFactors, p, j);
  }

  /** `risk_factors` is absent when there is no "Item 1A. Risk Factors" marker. */
  lemma RiskFactorsWithoutStart(text: string)
    requires NoneFrom(text, RiskStart, 0)
    ensures "risk_factors" !in Keys(SectionsOf(text))
  {
    SectionValues(text);
    SearchNoFirstAnchor(text, RiskFactors);
  }

  /** `risk_factors` is absent when no "Item 1B." follows the first start marker. */
  lemma RiskFactorsWithoutStop(text: string, p: nat)
    requires FirstAt(text, RiskStart, 0, p)
    requires NoneFrom(text, RiskStop, EndAt(text, RiskStart, p))
    ensures "risk_factors" !in Keys(SectionsOf(text))
  {
    SectionValues(text);
    SearchOneAnchorNoStop(text, RiskFactors, p);
  }

  /**
   * `mdna`: after the first "Item 7. Management" marker, the first
   * "Discussion" ends at `f`; the value runs from `f` to the first "Item 7A."
   * after it, stripped.
   */
  lemma MdnaBetween(text: string, p: nat, d: nat, j: nat)
    requires FirstAt(text, MdnaStart, 0, p)
    requires FirstAt(text, MdnaVia, EndAt(text, MdnaStart, p), d)
    requires FirstAt(text, MdnaStop, EndAt(text, MdnaVia, d), j)
    ensures Get(SectionsOf(text), "mdna") == Some(Strip(text[EndAt(text, MdnaVia, d)..j]))
  {
    SectionValues(text);
    SearchTwoAnchors(text, Mdna, p, d, j);
  }

  /** `mdna` is absent when there is no "Item 7. Management" marker. */
  lemma MdnaWithoutStart(text: string)
    requires NoneFrom(text, MdnaStart, 0)
    ensures "mdna" !in Keys(SectionsOf(text))
  {
    SectionValues(text);
    SearchNoFirstAnchor(text, Mdna);
  }

  /** `mdna` is absent when no "Discussion" follows the first start marker. */
  lemma MdnaWithoutDiscussion(text: string, p: nat)
    requires FirstAt(text, MdnaStart, 0, p)
    requires NoneFrom(text, MdnaVia, EndAt(text, MdnaStart, p))
    ensures "mdna" !in Keys(SectionsOf(text))
  {
    SectionValues(text);
    SearchTwoAnchorsNoSecond(text, Mdna, p);
  }

  /** `mdna` is absent when no "Item 7A." follows that first "Discussion". */
  lemma MdnaWithoutStop(text: string, p: nat, d: nat)
    requires FirstAt(text, MdnaStart, 0, p)
    requires FirstAt(text, MdnaVia, EndAt(text, MdnaStart, p), d)
    requires NoneFrom(text, MdnaStop, EndAt(text, MdnaVia, d))
    ensures "mdna" !in Keys(SectionsOf(text))
  {
    SectionValues(text);
    SearchTwoAnchorsNoStop(text, Mdna, p, d);
  }
}
