/** The catalyst recommendation engine: the reaction normaliser, the
    catalyst scorer and the ranker (api/skills/catalyst/catalyst_recommend.py).
    The knowledge base is a value passed in, not a file read from disk. */
module CatalystRecommend {
  import opened Common
  import opened Collections
  import opened Strings

  // ---------------------------------------------------------------------
  // Knowledge base records

  /** One entry of `reaction_type_map`: a canonical key and its description,
      in the map's insertion order. */
  datatype ReactionEntry = ReactionEntry(key: string, description: string)

  /** `typical_loading_mol_pct`, the pair [min, max]. */
  datatype LoadingRange = LoadingRange(low: real, high: real)

  datatype Catalyst = Catalyst(
    id: string,
    name: string,
    abbreviation: string,
    metal: string,
    ligand: string,
    ligandSmiles: Option<string>,
    reactionTypes: seq<string>,
    conditions: string,
    loadingMolPct: LoadingRange,
    advantages: seq<string>,
    limitations: seq<string>,
    costRelative: string,
    references: seq<string>)

  datatype Database = Database(reactionTypeMap: seq<ReactionEntry>, catalysts: seq<Catalyst>)

  /** The constraint keys the scorer reads. `prefer_metal` is read with
      `get`, so None stands for an absent key and for null alike, and a null
      `prefer_earth_abundant` is as falsy as an absent one; `max_cost` is read
      with a default, which null does not take. */
  datatype Constraints = Constraints(
    preferMetal: Option<string>,
    maxCost: Field<string>,
    preferEarthAbundant: bool)

  const NO_CONSTRAINTS := Constraints(None, Absent, false)

  /** The ValueError that `list.index` raises for a cost tier it does not
      know; the tier is None when `max_cost` holds null. */
  datatype ScoreError = UnknownCostTier(tier: Option<string>)

  datatype ScoredResult = ScoredResult(
    catalystId: string,
    name: string,
    abbreviation: string,
    metal: string,
    ligand: string,
    score: real,
    matchedReactions: seq<string>,
    conditions: string,
    loadingMolPct: LoadingRange,
    advantages: seq<string>,
    limitations: seq<string>,
    cost: string,
    references: seq<string>)

  /** The dictionary `recommend` returns, without its constant `agent`,
      `version` and `action` entries. */
  datatype RecommendReport = RecommendReport(
    reaction: string,
    normalizedTypes: seq<string>,
    substrate: Option<string>,
    constraints: Constraints,
    enantioselective: bool,
    results: seq<ScoredResult>,
    totalMatches: nat,
    status: string,
    suggestion: Option<string>)

  // ---------------------------------------------------------------------
  // Reaction normaliser

  function UnderscoreChar(c: char): (r: char)
    ensures r != '-' && r != ' '
    ensures !('A' <= c <= 'Z') ==> !('A' <= r <= 'Z')
  {
    if c == '-' || c == ' ' then '_' else c
  }

  lemma CanonicalCharNonSpace(c: char)
    requires !IsSpace(c)
    ensures !IsSpace(UnderscoreChar(LowerChar(c)))
  {
  }

  /** `t.replace("-", "_").replace(" ", "_")`. */
  function Underscores(t: string): (r: string)
    ensures |r| == |t| && forall i :: 0 <= i < |t| ==> r[i] == UnderscoreChar(t[i])
  {
    seq(|t|, i requires 0 <= i < |t| => UnderscoreChar(t[i]))
  }

  /** `reaction_str.strip().lower().replace("-", "_").replace(" ", "_")`. */
  function CanonicalToken(text: string): (r: string)
    ensures |r| == |Strip(text)|
    ensures forall i :: 0 <= i < |r| ==> r[i] == UnderscoreChar(LowerChar(Strip(text)[i]))
    ensures forall i :: 0 <= i < |r| ==> r[i] != '-' && r[i] != ' ' && !('A' <= r[i] <= 'Z')
    ensures r != [] ==> !IsSpace(r[0]) && !IsSpace(r[|r| - 1])
  {
    CanonicalTokenOf(text);
    Underscores(Lower(Strip(text)))
  }

  lemma CanonicalTokenOf(text: string)
    ensures var s, r := Strip(text), Underscores(Lower(Strip(text)));
      && |r| == |s|
      && (forall i :: 0 <= i < |r| ==> r[i] == UnderscoreChar(LowerChar(s[i])))
      && (forall i :: 0 <= i < |r| ==> r[i] != '-' && r[i] != ' ' && !('A' <= r[i] <= 'Z'))
      && (r != [] ==> !IsSpace(r[0]) && !IsSpace(r[|r| - 1]))
  {
    var s := Strip(text);
    if s != [] {
      CanonicalCharNonSpace(s[0]);
      CanonicalCharNonSpace(s[|s| - 1]);
    }
  }

  /** A token that is already canonical is left as it is, so canonical keys
      typed by a user match themselves. */
  lemma CanonicalTokenIdempotent(text: string)
    ensures CanonicalToken(CanonicalToken(text)) == CanonicalToken(text)
  {
    var t := CanonicalToken(text);
    assert StripLeading(t) == t;
    assert StripTrailing(t) == t;
    var u := CanonicalToken(t);
    assert |u| == |t|;
    forall i | 0 <= i < |t| ensures u[i] == t[i] {
      CanonicalCharFixed(t[i]);
    }
  }

  lemma CanonicalCharFixed(c: char)
    requires c != '-' && c != ' ' && !('A' <= c <= 'Z')
    ensures UnderscoreChar(LowerChar(c)) == c
  {
  }

  /** The fixed alias table of `normalize_reaction`, as (alias, keys) pairs
      in the order the dictionary literal lists them. */
  const ALIASES: seq<(string, seq<string>)> := [
    ("c_n", ["buchwald_hartwig", "c_n_coupling"]),
    ("amination", ["buchwald_hartwig", "c_n_coupling"]),
    ("coupling", ["suzuki", "heck", "sonogashira", "negishi", "kumada", "stille"]),
    ("cross_coupling", ["suzuki", "heck", "sonogashira", "negishi", "kumada", "stille"]),
    ("metathesis", ["olefin_metathesis", "ring_closing_metathesis", "cross_metathesis"]),
    ("rcm", ["ring_closing_metathesis"]),
    ("click", ["click_CuAAC", "azide_alkyne_cycloaddition"]),
    ("hydrogenation", ["hydrogenation", "asymmetric_hydrogenation", "directed_hydrogenation"])
  ]

  /** `aliases[r]` when `r in aliases`, and nothing otherwise. */
  function AliasTargets(r: string): seq<string> {
    GetOr(Find(ALIASES, r), [])
  }

  /** `r in reaction_map`. */
  predicate HasKey(rmap: seq<ReactionEntry>, r: string) {
    exists i :: 0 <= i < |rmap| && rmap[i].key == r
  }

  /** `r in key or r in desc.lower()`. */
  predicate IsHit(r: string, e: ReactionEntry) {
    Contains(e.key, r) || Contains(Lower(e.description), r)
  }

  /** The keys the fuzzy scan collects, in map order. */
  function FuzzyHits(r: string, rmap: seq<ReactionEntry>): seq<string> {
    if rmap == [] then []
    else
      var e := rmap[|rmap| - 1];
      FuzzyHits(r, rmap[..|rmap| - 1]) + (if IsHit(r, e) then [e.key] else [])
  }

  lemma {:induction false} FuzzyHitsMembers(r: string, rmap: seq<ReactionEntry>)
    ensures forall k :: k in FuzzyHits(r, rmap) <==>
      exists i :: 0 <= i < |rmap| && rmap[i].key == k && IsHit(r, rmap[i])
  {
    if rmap != [] {
      var init := rmap[..|rmap| - 1];
      FuzzyHitsMembers(r, init);
      forall k ensures k in FuzzyHits(r, rmap) <==>
        exists i :: 0 <= i < |rmap| && rmap[i].key == k && IsHit(r, rmap[i])
      {
        if exists i :: 0 <= i < |rmap| && rmap[i].key == k && IsHit(r, rmap[i]) {
          var i :| 0 <= i < |rmap| && rmap[i].key == k && IsHit(r, rmap[i]);
          if i < |rmap| - 1 {
            assert init[i] == rmap[i];
          }
        }
        if k in FuzzyHits(r, init) {
          var i :| 0 <= i < |init| && init[i].key == k && IsHit(r, init[i]);
          assert rmap[i] == init[i];
        }
      }
    }
  }

  lemma {:induction false} FuzzyHitsNone(r: string, rmap: seq<ReactionEntry>)
    requires forall i :: 0 <= i < |rmap| ==> !IsHit(r, rmap[i])
    ensures FuzzyHits(r, rmap) == []
  {
    if rmap != [] {
      FuzzyHitsNone(r, rmap[..|rmap| - 1]);
    }
  }

  /** What `normalize_reaction` returns, with `list(set(matches))` taken in
      first-occurrence order. */
  function Normalize(text: string, rmap: seq<ReactionEntry>): seq<string> {
    var r := CanonicalToken(text);
    if HasKey(rmap, r) then [r]
    else
      var matches := FuzzyHits(r, rmap) + AliasTargets(r);
      if matches == [] then [r] else Dedup(matches)
  }

  method NormalizeReaction(text: string, rmap: seq<ReactionEntry>) returns (types: seq<string>)
    ensures types == Normalize(text, rmap)
  {
    var r := CanonicalToken(text);
    if HasKey(rmap, r) {
      return [r];
    }
    var matches: seq<string> := [];
    for i := 0 to |rmap|
      invariant matches == FuzzyHits(r, rmap[..i])
    {
      var entry := rmap[i];
      FuzzyHitsStep(r, rmap, i);
      if Contains(entry.key, r) || Contains(Lower(entry.description), r) {
        matches := matches + [entry.key];
      }
    }
    assert rmap[..|rmap|] == rmap;
    matches := matches + AliasTargets(r);
    types := if matches != [] then Dedup(matches) else [r];
  }

  lemma FuzzyHitsStep(r: string, rmap: seq<ReactionEntry>, i: nat)
    requires i < |rmap|
    ensures FuzzyHits(r, rmap[..i + 1]) ==
      FuzzyHits(r, rmap[..i]) + (if IsHit(r, rmap[i]) then [rmap[i].key] else [])
  {
    assert rmap[..i + 1][..i] == rmap[..i];
  }

  /** An exact key match returns that key alone. */
  lemma NormalizeExactKey(text: string, rmap: seq<ReactionEntry>)
    requires HasKey(rmap, CanonicalToken(text))
    ensures Normalize(text, rmap) == [CanonicalToken(text)]
  {
  }

  /** Without an exact key and with some substring or alias hit, the result
      is the duplicate-free union of the keys containing the token (in the
      key or in the lower-cased description) and the alias expansion. */
  lemma {:induction false} NormalizeFuzzyUnion(text: string, rmap: seq<ReactionEntry>)
    requires !HasKey(rmap, CanonicalToken(text))
    requires FuzzyHits(CanonicalToken(text), rmap) + AliasTargets(CanonicalToken(text)) != []
    ensures NoDup(Normalize(text, rmap))
    ensures forall k :: k in Normalize(text, rmap) <==>
      (exists i :: 0 <= i < |rmap| && rmap[i].key == k && IsHit(CanonicalToken(text), rmap[i]))
      || k in AliasTargets(CanonicalToken(text))
  {
    FuzzyHitsMembers(CanonicalToken(text), rmap);
  }

  /** With no exact key and no hit at all, the literal token comes back. */
  lemma NormalizeFallback(text: string, rmap: seq<ReactionEntry>)
    requires !HasKey(rmap, CanonicalToken(text))
    requires forall i :: 0 <= i < |rmap| ==> !IsHit(CanonicalToken(text), rmap[i])
    requires AliasTargets(CanonicalToken(text)) == []
    ensures Normalize(text, rmap) == [CanonicalToken(text)]
  {
    FuzzyHitsNone(CanonicalToken(text), rmap);
  }

  lemma NormalizeNeverEmpty(text: string, rmap: seq<ReactionEntry>)
    ensures Normalize(text, rmap) != []
  {
    var r := CanonicalToken(text);
    if !HasKey(rmap, r) {
      var matches := FuzzyHits(r, rmap) + AliasTargets(r);
      if matches != [] {
        assert matches[0] in Dedup(matches);
      }
    }
  }

  /** A token without spaces or hyphens is canonicalised by lower-casing alone. */
  lemma CanonicalOfPlain(t: string)
    requires forall i :: 0 <= i < |t| ==> !IsSpace(t[i]) && t[i] != '-'
    ensures CanonicalToken(t) == Lower(t)
  {
    assert StripLeading(t) == t;
    assert StripTrailing(t) == t;
  }

  lemma CanonicalRcm()
    ensures CanonicalToken("rcm") == "rcm"
  {
    var t := "rcm";
    assert forall i :: 0 <= i < |t| ==> !IsSpace(t[i]) && t[i] != '-';
    CanonicalOfPlain(t);
    var l := Lower(t);
    assert l[0] == 'r' && l[1] == 'c' && l[2] == 'm';
  }

  lemma AliasRcm()
    ensures AliasTargets("rcm") == ["ring_closing_metathesis"]
  {
    var t := ALIASES;
    assert t[0].0[0] != 'r';
    assert t[1].0 != "rcm" && t[2].0 != "rcm" && t[3].0 != "rcm" && t[4].0 != "rcm" by {
      assert |t[1].0| != 3 && |t[2].0| != 3 && |t[3].0| != 3 && |t[4].0| != 3;
    }
    FindFirst(t, 5, "rcm");
  }

  /** "rcm" reaches ring-closing metathesis through the alias table. */
  lemma NormalizeRcm(rmap: seq<ReactionEntry>)
    requires !HasKey(rmap, "rcm")
    ensures "ring_closing_metathesis" in Normalize("rcm", rmap)
  {
    CanonicalRcm();
    AliasRcm();
    NormalizeFuzzyUnion("rcm", rmap);
  }

  lemma LowerSuzuki()
    ensures Lower("Suzuki") == "suzuki"
  {
    var l := Lower("Suzuki");
    assert LowerChar('S') == 's';
    assert l[0] == 's' && l[1] == 'u' && l[2] == 'z' && l[3] == 'u' && l[4] == 'k' && l[5] == 'i';
  }

  lemma CanonicalSuzuki()
    ensures CanonicalToken("Suzuki") == "suzuki"
  {
    var t := "Suzuki";
    assert forall i :: 0 <= i < |t| ==> !IsSpace(t[i]) && t[i] != '-';
    CanonicalOfPlain(t);
    LowerSuzuki();
  }

  /** "Suzuki" is lower-cased onto the key "suzuki" when the map has it. */
  lemma NormalizeSuzuki(rmap: seq<ReactionEntry>)
    requires HasKey(rmap, "suzuki")
    ensures Normalize("Suzuki", rmap) == ["suzuki"]
  {
    CanonicalSuzuki();
  }

  // ---------------------------------------------------------------------
  // Scorer

  /** The keys of `cost_scores`, cheapest first, and their points. */
  const COST_TIERS: seq<string> := ["very_low", "low", "medium", "high", "very_high"]
  const COST_POINTS: seq<real> := [15.0, 12.0, 9.0, 5.0, 2.0]
  const EARTH_ABUNDANT_METALS: seq<string> := ["Ni", "Cu", "Fe", "Zr"]
  const ENANTIO_TYPES: set<string> := {"asymmetric_hydrogenation", "asymmetric_isomerization"}

  function Elements(s: seq<string>): set<string> {
    set x | x in s
  }

  /** `set(catalyst["reaction_types"]) & set(reaction_types)`. */
  function Matched(cat: Catalyst, requested: seq<string>): set<string> {
    Elements(cat.reactionTypes) * Elements(requested)
  }

  /** `constraints.get("max_cost", "very_high")`. */
  function MaxCost(c: Constraints): Option<string> {
    GetDefault(c.maxCost, "very_high")
  }

  function CoveragePoints(matched: nat, requested: nat): real {
    if requested == 0 then 0.0 else 50.0 * (matched as real) / (requested as real)
  }

  /** The cost part: the tier's points when the catalyst's tier is no dearer
      than `max_cost`, with ValueError for a tier `list.index` cannot find
      (the catalyst's own tier is looked up first, and a null `max_cost` is
      not in the list either). */
  function CostBonus(catTier: string, maxTier: Option<string>): (r: Result<real, ScoreError>)
    ensures r.Ok? ==> 0.0 <= r.value <= 15.0
  {
    match IndexOf(COST_TIERS, catTier)
    case None => Err(UnknownCostTier(Some(catTier)))
    case Some(c) =>
      match (if maxTier.Some? then IndexOf(COST_TIERS, maxTier.value) else None)
      case None => Err(UnknownCostTier(maxTier))
      case Some(m) => Ok(if c <= m then COST_POINTS[c] else 0.0)
  }

  function MetalBonus(cat: Catalyst, c: Constraints): (r: real)
    ensures 0.0 <= r <= 10.0
  {
    if Truthy(c.preferMetal) && Lower(cat.metal) == Lower(c.preferMetal.value) then 10.0 else 0.0
  }

  function EarthBonus(cat: Catalyst, c: Constraints): (r: real)
    ensures 0.0 <= r <= 5.0
  {
    if c.preferEarthAbundant && cat.metal in EARTH_ABUNDANT_METALS then 5.0 else 0.0
  }

  function EnantioBonus(cat: Catalyst, enantioselective: bool): (r: real)
    ensures 0.0 <= r <= 10.0
  {
    if !enantioselective then 0.0
    else if Elements(cat.reactionTypes) * ENANTIO_TYPES != {} then 10.0
    else if Contains(cat.ligand, "BINAP") || Contains(Lower(cat.name), "chiral") then 5.0
    else 0.0
  }

  function AdvantageBonus(cat: Catalyst): (r: real)
    ensures 0.0 <= r <= 5.0
  {
    if |cat.advantages| < 5 then |cat.advantages| as real else 5.0
  }

  function LoadingBonus(cat: Catalyst): (r: real)
    ensures 0.0 <= r <= 5.0
  {
    if cat.loadingMolPct.low <= 1.0 then 5.0
    else if cat.loadingMolPct.low <= 2.0 then 3.0
    else 0.0
  }

  /** The total of the independent parts, before the clip at 100. */
  function RawScore(cat: Catalyst, requested: seq<string>, c: Constraints, enantioselective: bool, cost: real): real {
    CoveragePoints(|Matched(cat, requested)|, |requested|) + cost + MetalBonus(cat, c)
      + EarthBonus(cat, c) + EnantioBonus(cat, enantioselective) + AdvantageBonus(cat)
      + LoadingBonus(cat)
  }

  /** `score_catalyst`: zero without a matched reaction type, otherwise the
      sum of the parts clipped to 100. */
  function Score(cat: Catalyst, requested: seq<string>, c: Constraints, enantioselective: bool): Result<real, ScoreError> {
    if Matched(cat, requested) == {} then Ok(0.0)
    else
      match CostBonus(cat.costRelative, MaxCost(c))
      case Err(e) => Err(e)
      case Ok(cost) =>
        var raw := RawScore(cat, requested, c, enantioselective, cost);
        Ok(if raw < 100.0 then raw else 100.0)
  }

  method ScoreCatalyst(cat: Catalyst, requested: seq<string>, constraints: Constraints, enantioselective: bool)
    returns (r: Result<real, ScoreError>)
    ensures r == Score(cat, requested, constraints, enantioselective)
  {
    var score := 0.0;
    var matched := Matched(cat, requested);
    if matched == {} {
      return Ok(0.0);
    }
    score := score + CoveragePoints(|matched|, |requested|);

    var maxCost := MaxCost(constraints);
    var catRank := IndexOf(COST_TIERS, cat.costRelative);
    if catRank.None? {
      return Err(UnknownCostTier(Some(cat.costRelative)));
    }
    if maxCost.None? {
      return Err(UnknownCostTier(None));
    }
    var maxRank := IndexOf(COST_TIERS, maxCost.value);
    if maxRank.None? {
      return Err(UnknownCostTier(maxCost));
    }
    var cost := 0.0;
    if catRank.value <= maxRank.value {
      cost := COST_POINTS[catRank.value];
    }
    score := score + cost;
    assert cost == CostBonus(cat.costRelative, maxCost).value;
    ghost var sum := CoveragePoints(|matched|, |requested|) + cost;
    assert score == sum;

    if Truthy(constraints.preferMetal) {
      if Lower(cat.metal) == Lower(constraints.preferMetal.value) {
        score := score + 10.0;
      }
    }
    sum := sum + MetalBonus(cat, constraints);
    assert score == sum;
    if constraints.preferEarthAbundant {
      if cat.metal in EARTH_ABUNDANT_METALS {
        score := score + 5.0;
      }
    }
    sum := sum + EarthBonus(cat, constraints);
    assert score == sum;
    if enantioselective {
      if Elements(cat.reactionTypes) * ENANTIO_TYPES != {} {
        score := score + 10.0;
      } else if Contains(cat.ligand, "BINAP") || Contains(Lower(cat.name), "chiral") {
        score := score + 5.0;
      }
    }
    sum := sum + EnantioBonus(cat, enantioselective);
    assert score == sum;
    score := score + (if |cat.advantages| < 5 then |cat.advantages| as real else 5.0);
    if cat.loadingMolPct.low <= 1.0 {
      score := score + 5.0;
    } else if cat.loadingMolPct.low <= 2.0 {
      score := score + 3.0;
    }
    sum := sum + AdvantageBonus(cat) + LoadingBonus(cat);
    assert score == sum;
    assert sum == RawScore(cat, requested, constraints, enantioselective, cost);
    r := Ok(if score < 100.0 then score else 100.0);
  }

  /** Cost points: 15/12/9/5/2 from very_low to very_high, paid exactly when
      the tier is no dearer than `max_cost`, always paid under the default
      very_high, and an unknown or null tier is an error. */
  lemma CostBonusGate(catTier: string, maxTier: Option<string>)
    ensures catTier !in COST_TIERS ==> CostBonus(catTier, maxTier) == Err(UnknownCostTier(Some(catTier)))
    ensures catTier in COST_TIERS && (maxTier.None? || maxTier.value !in COST_TIERS) ==>
      CostBonus(catTier, maxTier) == Err(UnknownCostTier(maxTier))
    ensures catTier in COST_TIERS && maxTier.Some? && maxTier.value in COST_TIERS ==>
      var c := IndexOf(COST_TIERS, catTier).value;
      var m := IndexOf(COST_TIERS, maxTier.value).value;
      CostBonus(catTier, maxTier) == Ok(if c <= m then COST_POINTS[c] else 0.0) &&
      (CostBonus(catTier, maxTier).value > 0.0 <==> c <= m)
    ensures catTier in COST_TIERS ==>
      CostBonus(catTier, Some("very_high")) == Ok(COST_POINTS[IndexOf(COST_TIERS, catTier).value])
  {
    assert IndexOf(COST_TIERS, "very_high") == Some(4);
  }

  /** A `max_cost` holding null is not the default very_high: once a type
      matches and the catalyst's tier is known, `list.index(None)` raises. */
  lemma NullMaxCostRaises(cat: Catalyst, requested: seq<string>, c: Constraints, enantioselective: bool)
    requires Matched(cat, requested) != {} && cat.costRelative in COST_TIERS
    ensures c.maxCost.Null? ==> Score(cat, requested, c, enantioselective) == Err(UnknownCostTier(None))
    ensures c.maxCost.Absent? ==> Score(cat, requested, c, enantioselective).Ok?
  {
    CostBonusGate(cat.costRelative, MaxCost(c));
  }

  lemma CoverageBound(matched: nat, requested: nat)
    requires 0 < matched <= requested
    ensures 0.0 < CoveragePoints(matched, requested) <= 50.0
  {
    var q := (matched as real) / (requested as real);
    assert q * (requested as real) == matched as real;
    assert 0.0 < q <= 1.0;
    assert CoveragePoints(matched, requested) == 50.0 * q;
  }

  /** The matched set is part of the distinct requested types, so it is
      never larger than the request list. */
  lemma MatchedWithinRequest(cat: Catalyst, requested: seq<string>)
    ensures |Matched(cat, requested)| <= |requested|
  {
    SubsetCard(Matched(cat, requested), Elements(requested));
    CardOfElements(requested);
  }

  /** With a match and known tiers the parts add up to at most 100, so the
      clip at 100 never changes a score. */
  lemma ScoreNeverClipped(cat: Catalyst, requested: seq<string>, c: Constraints, enantioselective: bool)
    requires Matched(cat, requested) != {}
    requires CostBonus(cat.costRelative, MaxCost(c)).Ok?
    ensures var cost := CostBonus(cat.costRelative, MaxCost(c)).value;
      var raw := RawScore(cat, requested, c, enantioselective, cost);
      0.0 < raw <= 100.0 && Score(cat, requested, c, enantioselective) == Ok(raw)
  {
    var cost := CostBonus(cat.costRelative, MaxCost(c)).value;
    RawScoreBound(cat, requested, c, enantioselective, cost);
  }

  lemma RawScoreBound(cat: Catalyst, requested: seq<string>, c: Constraints, enantioselective: bool, cost: real)
    requires Matched(cat, requested) != {}
    requires 0.0 <= cost <= 15.0
    ensures 0.0 < RawScore(cat, requested, c, enantioselective, cost) <= 100.0
  {
    MatchedWithinRequest(cat, requested);
    CoverageBound(|Matched(cat, requested)|, |requested|);
    var cov := CoveragePoints(|Matched(cat, requested)|, |requested|);
    var metal, earth, enantio := MetalBonus(cat, c), EarthBonus(cat, c), EnantioBonus(cat, enantioselective);
    var adv, load := AdvantageBonus(cat), LoadingBonus(cat);
    assert RawScore(cat, requested, c, enantioselective, cost) == cov + cost + metal + earth + enantio + adv + load;
  }

  /** A catalyst scores 0 exactly when none of its reaction types is
      requested; with a match it scores in (0, 100] or raises. */
  lemma ScoreZeroIffNoMatch(cat: Catalyst, requested: seq<string>, c: Constraints, enantioselective: bool)
    ensures Matched(cat, requested) == {} <==> Score(cat, requested, c, enantioselective) == Ok(0.0)
    ensures Score(cat, requested, c, enantioselective).Ok? ==>
      0.0 <= Score(cat, requested, c, enantioselective).value <= 100.0
    ensures Matched(cat, requested) != {} ==>
      (Score(cat, requested, c, enantioselective).Err? <==> CostBonus(cat.costRelative, MaxCost(c)).Err?)
  {
    if Matched(cat, requested) != {} && CostBonus(cat.costRelative, MaxCost(c)).Ok? {
      ScoreNeverClipped(cat, requested, c, enantioselective);
    }
  }

  /** Asking for enantioselectivity adds 10 to a catalyst with an asymmetric
      reaction type, otherwise 5 to a BINAP or "chiral" catalyst, otherwise
      nothing; no other part of the score moves. */
  lemma EnantioselectiveEffect(cat: Catalyst, requested: seq<string>, c: Constraints)
    requires Score(cat, requested, c, false).Ok?
    ensures Score(cat, requested, c, true).Ok?
    ensures var gain := Score(cat, requested, c, true).value - Score(cat, requested, c, false).value;
      if Matched(cat, requested) == {} then gain == 0.0
      else if Elements(cat.reactionTypes) * ENANTIO_TYPES != {} then gain == 10.0
      else if Contains(cat.ligand, "BINAP") || Contains(Lower(cat.name), "chiral") then gain == 5.0
      else gain == 0.0
  {
    if Matched(cat, requested) != {} {
      ScoreNeverClipped(cat, requested, c, false);
      ScoreNeverClipped(cat, requested, c, true);
    }
  }

  // ---------------------------------------------------------------------
  // Ranker

  /** The catalyst's reaction types that were requested, in catalyst order. */
  function CommonTypes(types: seq<string>, requested: seq<string>): (r: seq<string>)
    ensures forall t :: t in r <==> t in types && t in requested
  {
    if types == [] then []
    else
      var init := types[..|types| - 1];
      var last := types[|types| - 1];
      assert types == init + [last];
      CommonTypes(init, requested) + (if last in requested then [last] else [])
  }

  /** `round(x, 1)`: the nearest multiple of 0.1, a tie going to the even
      tenth. */
  function Round1(x: real): (r: real)
    ensures (r * 10.0).Floor as real == r * 10.0
    ensures -0.05 <= r - x <= 0.05
    ensures 0.0 <= x <= 100.0 ==> 0.0 <= r <= 100.0
  {
    var y := x * 10.0;
    var q := y.Floor;
    assert q as real <= y < q as real + 1.0;
    var frac := y - q as real;
    var n := if frac > 0.5 || (frac == 0.5 && q % 2 != 0) then q + 1 else q;
    assert -0.5 <= n as real - y <= 0.5;
    var r := n as real / 10.0;
    assert r * 10.0 == n as real;
    assert r - x == (n as real - y) / 10.0;
    assert 0.0 <= x <= 100.0 ==> 0 <= n <= 1000;
    r
  }

  /** The result dictionary of one catalyst, its score rounded to a tenth. */
  function MakeResult(cat: Catalyst, requested: seq<string>, score: real): ScoredResult {
    ScoredResult(cat.id, cat.name, cat.abbreviation, cat.metal, cat.ligand, Round1(score),
      SortedSet(CommonTypes(cat.reactionTypes, requested)), cat.conditions,
      cat.loadingMolPct, cat.advantages, cat.limitations, cat.costRelative, cat.references)
  }

  /** The list the scoring loop builds, in database order, or the first
      error a catalyst's scoring raised. */
  function CollectResults(cats: seq<Catalyst>, requested: seq<string>, c: Constraints, enantioselective: bool)
    : Result<seq<ScoredResult>, ScoreError>
  {
    if cats == [] then Ok([])
    else
      var cat := cats[|cats| - 1];
      match CollectResults(cats[..|cats| - 1], requested, c, enantioselective)
      case Err(e) => Err(e)
      case Ok(found) =>
        match Score(cat, requested, c, enantioselective)
        case Err(e) => Err(e)
        case Ok(s) => Ok(if s > 0.0 then found + [MakeResult(cat, requested, s)] else found)
  }

  lemma CollectStep(cats: seq<Catalyst>, i: nat, requested: seq<string>, c: Constraints, enantioselective: bool)
    requires i < |cats|
    ensures CollectResults(cats[..i + 1], requested, c, enantioselective) ==
      match CollectResults(cats[..i], requested, c, enantioselective)
      case Err(e) => Err(e)
      case Ok(found) =>
        match Score(cats[i], requested, c, enantioselective)
        case Err(e) => Err(e)
        case Ok(s) => Ok(if s > 0.0 then found + [MakeResult(cats[i], requested, s)] else found)
  {
    assert cats[..i + 1][..i] == cats[..i];
  }

  lemma {:induction false} CollectErrorSticks(cats: seq<Catalyst>, n: nat, requested: seq<string>, c: Constraints, enantioselective: bool)
    requires n <= |cats|
    requires CollectResults(cats[..n], requested, c, enantioselective).Err?
    ensures CollectResults(cats, requested, c, enantioselective) == CollectResults(cats[..n], requested, c, enantioselective)
  {
    if n < |cats| {
      var init := cats[..|cats| - 1];
      assert init[..n] == cats[..n];
      CollectErrorSticks(init, n, requested, c, enantioselective);
    } else {
      assert cats[..n] == cats;
    }
  }

  predicate ValidResult(r: ScoredResult) {
    0.0 <= r.score <= 100.0 && r.matchedReactions != [] && StrictlySorted(r.matchedReactions)
  }

  /** `score > 0`: the scan keeps this record. */
  predicate Kept(cat: Catalyst, requested: seq<string>, c: Constraints, enantioselective: bool) {
    Score(cat, requested, c, enantioselective).Ok? && Score(cat, requested, c, enantioselective).value > 0.0
  }

  /** The result dictionary the scan appends for a kept record. */
  function KeptResult(cat: Catalyst, requested: seq<string>, c: Constraints, enantioselective: bool): ScoredResult
    requires Kept(cat, requested, c, enantioselective)
  {
    MakeResult(cat, requested, Score(cat, requested, c, enantioselective).value)
  }

  /** The result is the one built from a kept database record: it names that
      record, carries its score rounded to a tenth, and lists exactly the
      types it matched. */
  predicate ResultOf(r: ScoredResult, cat: Catalyst, requested: seq<string>, c: Constraints, enantioselective: bool) {
    && Kept(cat, requested, c, enantioselective)
    && r == KeptResult(cat, requested, c, enantioselective)
    && r.catalystId == cat.id
    && r.score == Round1(Score(cat, requested, c, enantioselective).value)
    && Elements(r.matchedReactions) == Matched(cat, requested)
  }

  /** Every collected result has a score in [0, 100] and a non-empty, sorted
      `matched_reactions`, and is the result of a kept record of the
      database; conversely every record scoring above zero has its result
      in the list. */
  lemma {:induction false} CollectedResultsValid(cats: seq<Catalyst>, requested: seq<string>, c: Constraints, enantioselective: bool)
    requires CollectResults(cats, requested, c, enantioselective).Ok?
    ensures forall r :: r in CollectResults(cats, requested, c, enantioselective).value ==>
      ValidResult(r) && exists j :: 0 <= j < |cats| && ResultOf(r, cats[j], requested, c, enantioselective)
    ensures forall j :: 0 <= j < |cats| && Kept(cats[j], requested, c, enantioselective) ==>
      KeptResult(cats[j], requested, c, enantioselective) in CollectResults(cats, requested, c, enantioselective).value
  {
    if cats != [] {
      var init := cats[..|cats| - 1];
      var cat := cats[|cats| - 1];
      CollectedResultsValid(init, requested, c, enantioselective);
      var found := CollectResults(init, requested, c, enantioselective).value;
      forall r | r in found ensures exists j :: 0 <= j < |cats| && ResultOf(r, cats[j], requested, c, enantioselective) {
        var j :| 0 <= j < |init| && ResultOf(r, init[j], requested, c, enantioselective);
        assert cats[j] == init[j];
      }
      var s := Score(cat, requested, c, enantioselective).value;
      if s > 0.0 {
        NewResultValid(cat, requested, c, enantioselective, s);
      }
      CollectLast(cats, requested, c, enantioselective);
      CollectedFromInit(cats, init, requested, c, enantioselective, found,
        CollectResults(cats, requested, c, enantioselective).value);
    }
  }

  lemma NewResultValid(cat: Catalyst, requested: seq<string>, c: Constraints, enantioselective: bool, s: real)
    requires Score(cat, requested, c, enantioselective) == Ok(s) && s > 0.0
    ensures ValidResult(MakeResult(cat, requested, s)) && ResultOf(MakeResult(cat, requested, s), cat, requested, c, enantioselective)
  {
    ScoreZeroIffNoMatch(cat, requested, c, enantioselective);
    var m := SortedSet(CommonTypes(cat.reactionTypes, requested));
    var t :| t in Matched(cat, requested);
    assert t in m;
  }

  /** The scan over a non-empty database is the scan over all but the last
      record, with the last record's result appended when it is kept. */
  lemma CollectLast(cats: seq<Catalyst>, requested: seq<string>, c: Constraints, enantioselective: bool)
    requires cats != []
    requires CollectResults(cats, requested, c, enantioselective).Ok?
    ensures var cat := cats[|cats| - 1];
      && CollectResults(cats[..|cats| - 1], requested, c, enantioselective).Ok?
      && CollectResults(cats, requested, c, enantioselective).value ==
         CollectResults(cats[..|cats| - 1], requested, c, enantioselective).value +
         (if Kept(cat, requested, c, enantioselective) then [KeptResult(cat, requested, c, enantioselective)] else [])
  {
  }

  /** The completeness step: the records before the last keep their results,
      and the last one's result is appended when it is kept. */
  lemma CollectedFromInit(cats: seq<Catalyst>, init: seq<Catalyst>, requested: seq<string>, c: Constraints, enantioselective: bool,
                          found: seq<ScoredResult>, all: seq<ScoredResult>)
    requires cats != [] && init == cats[..|cats| - 1]
    requires all == found + (if Kept(cats[|cats| - 1], requested, c, enantioselective)
                             then [KeptResult(cats[|cats| - 1], requested, c, enantioselective)] else [])
    requires forall j :: 0 <= j < |init| && Kept(init[j], requested, c, enantioselective) ==>
      KeptResult(init[j], requested, c, enantioselective) in found
    ensures forall j :: 0 <= j < |cats| && Kept(cats[j], requested, c, enantioselective) ==>
      KeptResult(cats[j], requested, c, enantioselective) in all
  {
    forall j | 0 <= j < |cats| && Kept(cats[j], requested, c, enantioselective)
      ensures KeptResult(cats[j], requested, c, enantioselective) in all
    {
      if j < |cats| - 1 {
        assert init[j] == cats[j];
      }
    }
  }

  /** Any reordering of the collected list keeps both directions of
      `CollectedResultsValid`. */
  lemma PermutedResults(cats: seq<Catalyst>, requested: seq<string>, c: Constraints, enantioselective: bool,
                        found: seq<ScoredResult>, results: seq<ScoredResult>)
    requires CollectResults(cats, requested, c, enantioselective) == Ok(found)
    requires multiset(results) == multiset(found)
    ensures forall i :: 0 <= i < |results| ==>
      && ValidResult(results[i])
      && exists j :: 0 <= j < |cats| && ResultOf(results[i], cats[j], requested, c, enantioselective)
    ensures forall j :: 0 <= j < |cats| && Kept(cats[j], requested, c, enantioselective) ==>
      KeptResult(cats[j], requested, c, enantioselective) in results
  {
    CollectedResultsValid(cats, requested, c, enantioselective);
    forall i | 0 <= i < |results| ensures results[i] in found {
      assert results[i] in multiset(found);
    }
    forall j | 0 <= j < |cats| && Kept(cats[j], requested, c, enantioselective)
      ensures KeptResult(cats[j], requested, c, enantioselective) in results
    {
      assert KeptResult(cats[j], requested, c, enantioselective) in multiset(results);
    }
  }

  /** `sort(key=score, reverse=True)` is stable: an entry goes after every
      entry whose score is at least its own. */
  function InsertByScore(x: ScoredResult, s: seq<ScoredResult>): seq<ScoredResult> {
    if s == [] then [x]
    else if s[0].score >= x.score then [s[0]] + InsertByScore(x, s[1..])
    else [x] + s
  }

  function SortByScore(s: seq<ScoredResult>): seq<ScoredResult> {
    if s == [] then []
    else InsertByScore(s[|s| - 1], SortByScore(s[..|s| - 1]))
  }

  predicate NonIncreasing(s: seq<ScoredResult>) {
    forall i, j :: 0 <= i < j < |s| ==> s[i].score >= s[j].score
  }

  /** The entries with score `k`, in order. */
  function WithScore(s: seq<ScoredResult>, k: real): seq<ScoredResult> {
    if s == [] then []
    else (if s[0].score == k then [s[0]] else []) + WithScore(s[1..], k)
  }

  function ClassOf(x: ScoredResult, k: real): seq<ScoredResult> {
    if x.score == k then [x] else []
  }

  lemma WithScoreCons(x: ScoredResult, t: seq<ScoredResult>, k: real)
    ensures WithScore([x] + t, k) == ClassOf(x, k) + WithScore(t, k)
  {
    var s := [x] + t;
    assert s[0] == x && s[1..] == t;
  }

  lemma {:induction false} WithScoreAppend(a: seq<ScoredResult>, b: seq<ScoredResult>, k: real)
    ensures WithScore(a + b, k) == WithScore(a, k) + WithScore(b, k)
  {
    if a == [] {
      assert a + b == b;
    } else {
      var h, t := a[0], a[1..];
      assert a == [h] + t;
      assert a + b == [h] + (t + b);
      WithScoreAppend(t, b, k);
      WithScoreCons(h, t + b, k);
      WithScoreCons(h, t, k);
    }
  }

  lemma {:induction false} WithScoreNone(s: seq<ScoredResult>, k: real)
    requires forall i :: 0 <= i < |s| ==> s[i].score < k
    ensures WithScore(s, k) == []
  {
    if s != [] {
      WithScoreNone(s[1..], k);
    }
  }

  lemma NonIncreasingTail(s: seq<ScoredResult>)
    requires NonIncreasing(s) && s != []
    ensures NonIncreasing(s[1..])
  {
    var tail := s[1..];
    forall i, j | 0 <= i < j < |tail| ensures tail[i].score >= tail[j].score {
      assert tail[i] == s[i + 1] && tail[j] == s[j + 1];
    }
  }

  lemma {:induction false} InsertByScorePermutes(x: ScoredResult, s: seq<ScoredResult>)
    ensures multiset(InsertByScore(x, s)) == multiset(s) + multiset{x}
  {
    if s != [] && s[0].score >= x.score {
      InsertByScorePermutes(x, s[1..]);
      assert s == [s[0]] + s[1..];
    }
  }

  lemma {:induction false} InsertByScoreBounded(x: ScoredResult, s: seq<ScoredResult>, m: real)
    requires x.score <= m
    requires forall i :: 0 <= i < |s| ==> s[i].score <= m
    ensures forall i :: 0 <= i < |InsertByScore(x, s)| ==> InsertByScore(x, s)[i].score <= m
  {
    if s != [] && s[0].score >= x.score {
      InsertByScoreBounded(x, s[1..], m);
    }
  }

  lemma {:induction false} InsertByScoreOrdered(x: ScoredResult, s: seq<ScoredResult>)
    requires NonIncreasing(s)
    ensures NonIncreasing(InsertByScore(x, s))
  {
    if s == [] {
    } else if s[0].score >= x.score {
      var tail := s[1..];
      NonIncreasingTail(s);
      InsertByScoreOrdered(x, tail);
      assert forall i :: 0 <= i < |tail| ==> tail[i] == s[i + 1];
      InsertByScoreBounded(x, tail, s[0].score);
      var rest := InsertByScore(x, tail);
      var r := [s[0]] + rest;
      forall i, j | 0 <= i < j < |r| ensures r[i].score >= r[j].score {
        assert r[j] == rest[j - 1];
        if i > 0 {
          assert r[i] == rest[i - 1];
        }
      }
    } else {
      var r := [x] + s;
      forall i, j | 0 <= i < j < |r| ensures r[i].score >= r[j].score {
        if i == 0 {
          assert r[j] == s[j - 1];
        } else {
          assert r[i] == s[i - 1] && r[j] == s[j - 1];
        }
      }
    }
  }

  /** An entry placed in front of lower scores joins its own score class
      last. */
  lemma InsertFrontStable(x: ScoredResult, s: seq<ScoredResult>, k: real)
    requires NonIncreasing(s) && s != [] && s[0].score < x.score
    ensures WithScore([x] + s, k) == WithScore(s, k) + WithScore([x], k)
  {
    assert ([x] + s)[1..] == s;
    if x.score == k {
      assert forall i :: 0 <= i < |s| ==> s[i].score <= s[0].score;
      WithScoreNone(s, k);
    }
  }

  lemma {:induction false} InsertByScoreStable(x: ScoredResult, s: seq<ScoredResult>, k: real)
    requires NonIncreasing(s)
    ensures WithScore(InsertByScore(x, s), k) == WithScore(s, k) + WithScore([x], k)
  {
    if s == [] {
    } else if s[0].score >= x.score {
      NonIncreasingTail(s);
      InsertByScoreStable(x, s[1..], k);
      InsertBehindStable(x, s[0], s[1..], k);
      assert s == [s[0]] + s[1..];
    } else {
      InsertFrontStable(x, s, k);
    }
  }

  /** An entry passed over by the scan lands behind the head, which keeps
      its place in its own score class. */
  lemma InsertBehindStable(x: ScoredResult, h: ScoredResult, t: seq<ScoredResult>, k: real)
    requires h.score >= x.score
    requires WithScore(InsertByScore(x, t), k) == WithScore(t, k) + WithScore([x], k)
    ensures WithScore(InsertByScore(x, [h] + t), k) == WithScore([h] + t, k) + WithScore([x], k)
  {
    var rest := InsertByScore(x, t);
    InsertBehindUnfold(x, h, t);
    WithScoreCons(h, rest, k);
    WithScoreCons(h, t, k);
    Regroup(WithScore([h] + rest, k), WithScore([h] + t, k), WithScore(rest, k),
            ClassOf(h, k), WithScore(t, k), WithScore([x], k));
  }

  lemma Regroup(p: seq<ScoredResult>, q: seq<ScoredResult>, u: seq<ScoredResult>,
                a: seq<ScoredResult>, b: seq<ScoredResult>, c: seq<ScoredResult>)
    requires p == a + u && u == b + c && q == a + b
    ensures p == q + c
  {
  }

  lemma InsertBehindUnfold(x: ScoredResult, h: ScoredResult, t: seq<ScoredResult>)
    requires h.score >= x.score
    ensures InsertByScore(x, [h] + t) == [h] + InsertByScore(x, t)
  {
    assert ([h] + t)[0] == h && ([h] + t)[1..] == t;
  }

  /** The ranking is in non-increasing score order, holds the same entries,
      and keeps equal-score entries in their original relative order. */
  lemma {:induction false} SortByScoreProps(s: seq<ScoredResult>)
    ensures NonIncreasing(SortByScore(s))
    ensures multiset(SortByScore(s)) == multiset(s)
    ensures forall k :: WithScore(SortByScore(s), k) == WithScore(s, k)
  {
    if s != [] {
      var init := s[..|s| - 1];
      var last := s[|s| - 1];
      SortByScoreProps(init);
      InsertByScoreOrdered(last, SortByScore(init));
      InsertByScorePermutes(last, SortByScore(init));
      assert s == init + [last];
      forall k ensures WithScore(SortByScore(s), k) == WithScore(s, k) {
        InsertByScoreStable(last, SortByScore(init), k);
        WithScoreAppend(init, [last], k);
      }
    }
  }

  function Suggestion(reaction: string): string {
    "No catalysts found for '" + reaction + "'. Try broader terms like 'coupling' or 'hydrogenation'."
  }

  function Report(reaction: string, requested: seq<string>, substrate: Option<string>, constraints: Constraints,
                  enantioselective: bool, results: seq<ScoredResult>): RecommendReport
  {
    RecommendReport(reaction, requested, substrate, constraints, enantioselective,
      results, |results|,
      if results != [] then "success" else "no_matches",
      if results != [] then None else Some(Suggestion(reaction)))
  }

  /** What `recommend` returns for a database, or the error it raises. */
  function RecommendSpec(db: Database, reaction: string, substrate: Option<string>, constraints: Constraints, enantioselective: bool)
    : Result<RecommendReport, ScoreError>
  {
    var requested := Normalize(reaction, db.reactionTypeMap);
    match CollectResults(db.catalysts, requested, constraints, enantioselective)
    case Err(e) => Err(e)
    case Ok(found) =>
      Ok(Report(reaction, requested, substrate, constraints, enantioselective, SortByScore(found)))
  }

  /** The scoring loop of `recommend`: every catalyst scored in database
      order, those above zero kept, the first ValueError propagated. */
  method CollectMatches(cats: seq<Catalyst>, requested: seq<string>, constraints: Constraints, enantioselective: bool)
    returns (out: Result<seq<ScoredResult>, ScoreError>)
    ensures out == CollectResults(cats, requested, constraints, enantioselective)
  {
    var results: seq<ScoredResult> := [];
    for i := 0 to |cats|
      invariant CollectResults(cats[..i], requested, constraints, enantioselective) == Ok(results)
    {
      var cat := cats[i];
      CollectStep(cats, i, requested, constraints, enantioselective);
      var score := ScoreCatalyst(cat, requested, constraints, enantioselective);
      if score.Err? {
        CollectErrorSticks(cats, i + 1, requested, constraints, enantioselective);
        return Err(score.error);
      }
      if score.value > 0.0 {
        results := results + [MakeResult(cat, requested, score.value)];
      }
    }
    assert cats[..|cats|] == cats;
    out := Ok(results);
  }

  method Recommend(db: Database, reaction: string, substrate: Option<string>, constraints: Constraints, enantioselective: bool)
    returns (out: Result<RecommendReport, ScoreError>)
    ensures out == RecommendSpec(db, reaction, substrate, constraints, enantioselective)
  {
    var requested := NormalizeReaction(reaction, db.reactionTypeMap);
    var found := CollectMatches(db.catalysts, requested, constraints, enantioselective);
    if found.Err? {
      return Err(found.error);
    }
    var results := SortByScore(found.value);
    out := Ok(Report(reaction, requested, substrate, constraints, enantioselective, results));
  }

  /** The report `recommend` returns: every result scored in [0, 100] with a
      non-empty sorted match list and built from a database record, every
      record scoring above zero present, results in non-increasing score order with
      ties in database order, `total_matches` their number, and "success"
      with no suggestion exactly when there are results. */
  lemma RecommendReportValid(db: Database, reaction: string, substrate: Option<string>, constraints: Constraints, enantioselective: bool)
    ensures RecommendSpec(db, reaction, substrate, constraints, enantioselective).Ok? ==>
      var rep := RecommendSpec(db, reaction, substrate, constraints, enantioselective).value;
      var found := CollectResults(db.catalysts, rep.normalizedTypes, constraints, enantioselective).value;
      && (forall i :: 0 <= i < |rep.results| ==> ValidResult(rep.results[i]))
      && (forall i :: 0 <= i < |rep.results| ==>
            exists j :: 0 <= j < |db.catalysts| &&
              ResultOf(rep.results[i], db.catalysts[j], rep.normalizedTypes, constraints, enantioselective))
      && (forall j :: 0 <= j < |db.catalysts| && Kept(db.catalysts[j], rep.normalizedTypes, constraints, enantioselective) ==>
            KeptResult(db.catalysts[j], rep.normalizedTypes, constraints, enantioselective) in rep.results)
      && NonIncreasing(rep.results)
      && multiset(rep.results) == multiset(found)
      && (forall k :: WithScore(rep.results, k) == WithScore(found, k))
      && rep.totalMatches == |rep.results|
      && (rep.status == "success" <==> rep.results != [])
      && (rep.suggestion.None? <==> rep.results != [])
  {
    var requested := Normalize(reaction, db.reactionTypeMap);
    if CollectResults(db.catalysts, requested, constraints, enantioselective).Err? {
      return;
    }
    var found := CollectResults(db.catalysts, requested, constraints, enantioselective).value;
    SortByScoreProps(found);
    PermutedResults(db.catalysts, requested, constraints, enantioselective, found, SortByScore(found));
  }
}
