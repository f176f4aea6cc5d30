/** The chaining entry point of the catalyst agent
    (api/skills/catalyst/chain_entry.py): routing on the keys present in the
    input, the best-effort ligand optimisation of the top catalyst, the
    overall status and the sorted `recommend_next` hints. */
module ChainEntry {
  import opened Common
  import opened Strings
  import opened CatalystRecommend
  import opened LigandDesigner

  /** The input keys `chain_run` reads, each absent, null or holding a value. */
  datatype ChainInput = ChainInput(
    reaction: Field<string>,
    reactionType: Field<string>,
    substrate: Field<string>,
    smiles: Field<string>,
    constraints: Field<Constraints>,
    enantioselective: Field<bool>,
    scaffold: Field<string>,
    ligand: Field<string>,
    strategy: Field<string>,
    context: Field<string>)

  /** What `chain_run` raises:
      - the ValueError of the scorer;
      - a key that is present but whose `or` chain yields None, which the
        recommender (`None.strip()`) or the SMILES parser cannot take. */
  datatype ChainError = RecommendFailed(cause: ScoreError) | MissingReaction | MissingScaffold

  /** The dictionary `chain_run` returns, without its constant `agent` and
      `version` entries and its timestamp; the three report sections are
      None where the key is absent, and the context is None where the input
      holds null. */
  datatype ChainReport = ChainReport(
    context: Option<string>,
    status: string,
    recommendation: Option<RecommendReport>,
    ligandDesign: Option<DesignReport>,
    ligandOptimization: Option<DesignReport>,
    recommendNext: seq<string>)

  /** `"reaction" in input_data or "reaction_type" in input_data`. */
  predicate HasReaction(inp: ChainInput) {
    Present(inp.reaction) || Present(inp.reactionType)
  }

  /** `"scaffold" in input_data or "ligand" in input_data`. */
  predicate HasScaffold(inp: ChainInput) {
    Present(inp.scaffold) || Present(inp.ligand)
  }

  /** Step 1: the recommendation section. */
  function RecommendSection(db: Database, inp: ChainInput): Result<Option<RecommendReport>, ChainError> {
    if !HasReaction(inp) then Ok(None)
    else
      match PyOr(Get(inp.reaction), Get(inp.reactionType))
      case None => Err(MissingReaction)
      case Some(reaction) =>
        match RecommendSpec(db, reaction, PyOr(Get(inp.substrate), Get(inp.smiles)),
                            GetOr(Get(inp.constraints), NO_CONSTRAINTS), GetOr(Get(inp.enantioselective), false))
        case Err(e) => Err(RecommendFailed(e))
        case Ok(rep) => Ok(Some(rep))
  }

  /** Step 2: the ligand design section. */
  function DesignSection(tk: Toolkit, inp: ChainInput): Result<Option<DesignReport>, ChainError> {
    if !HasScaffold(inp) then Ok(None)
    else
      match PyOr(Get(inp.scaffold), Get(inp.ligand))
      case None => Err(MissingScaffold)
      case Some(scaffold) => Ok(Some(DesignSpec(tk, scaffold, GetDefault(inp.strategy, "all"))))
  }

  /** A database record that can seed the optimisation: the top result's
      catalyst, with a non-empty `ligand_smiles`. */
  predicate Supplies(cat: Catalyst, id: string) {
    cat.id == id && Truthy(cat.ligandSmiles)
  }

  /** The `ligand_smiles` of the first record the `for ... break` scan stops at. */
  function FirstLigandSmiles(cats: seq<Catalyst>, id: string): Option<string> {
    if cats == [] then None
    else if Supplies(cats[0], id) then cats[0].ligandSmiles
    else FirstLigandSmiles(cats[1..], id)
  }

  /** The scan finds the ligand SMILES of the first supplying record, and
      nothing exactly when no record supplies one. */
  lemma {:induction false} FirstLigandSmilesSpec(cats: seq<Catalyst>, id: string)
    ensures FirstLigandSmiles(cats, id).None? <==> forall j :: 0 <= j < |cats| ==> !Supplies(cats[j], id)
    ensures FirstLigandSmiles(cats, id).Some? ==>
      exists j :: 0 <= j < |cats| && Supplies(cats[j], id) && cats[j].ligandSmiles == FirstLigandSmiles(cats, id)
        && forall q :: 0 <= q < j ==> !Supplies(cats[q], id)
  {
    if cats != [] && !Supplies(cats[0], id) {
      FirstLigandSmilesSpec(cats[1..], id);
      if FirstLigandSmiles(cats[1..], id).Some? {
        var j :| 0 <= j < |cats[1..]| && Supplies(cats[1..][j], id)
          && cats[1..][j].ligandSmiles == FirstLigandSmiles(cats[1..], id)
          && forall q :: 0 <= q < j ==> !Supplies(cats[1..][q], id);
        assert cats[j + 1] == cats[1..][j];
        forall q | 0 <= q < j + 1 ensures !Supplies(cats[q], id) {
          if q > 0 {
            assert cats[q] == cats[1..][q - 1];
          }
        }
      } else {
        forall j | 0 <= j < |cats| ensures !Supplies(cats[j], id) {
          if j > 0 {
            assert cats[j] == cats[1..][j - 1];
          }
        }
      }
    }
  }

  /** Step 3: the optimisation section, run only for a reaction without a
      scaffold whose top result has an abbreviation and a supplying record. */
  function Optimization(tk: Toolkit, db: Database, inp: ChainInput, rec: Option<RecommendReport>): Option<DesignReport> {
    if HasReaction(inp) && !HasScaffold(inp) && rec.Some? && rec.value.results != [] then
      var top := rec.value.results[0];
      if top.abbreviation != "" then
        match FirstLigandSmiles(db.catalysts, top.catalystId)
        case None => None
        case Some(smiles) => Some(DesignSpec(tk, smiles, Some("all")))
      else None
    else None
  }

  /** The hints added to the `recommend_next` set, before sorting. */
  function Hints(rec: Option<RecommendReport>, design: Option<DesignReport>): seq<string> {
    (if rec.Some? && rec.value.results != [] then ["chemistry-query", "pharmacology"] else []) +
    (if design.Some? && DesignVariants(design.value) != [] then ["ip-expansion", "chemistry-query"] else [])
  }

  /** The unified output built from the three sections. */
  function Assemble(context: Option<string>, rec: Option<RecommendReport>, design: Option<DesignReport>,
                    opt: Option<DesignReport>): ChainReport
  {
    ChainReport(context,
      if rec.Some? || design.Some? || opt.Some? then "success" else "error",
      rec, design, opt, SortedSet(Hints(rec, design)))
  }

  /** What `chain_run` returns, or the error it raises. */
  function ChainSpec(tk: Toolkit, db: Database, inp: ChainInput): Result<ChainReport, ChainError> {
    match RecommendSection(db, inp)
    case Err(e) => Err(e)
    case Ok(rec) =>
      match DesignSection(tk, inp)
      case Err(e) => Err(e)
      case Ok(design) =>
        Ok(Assemble(GetDefault(inp.context, "user"), rec, design, Optimization(tk, db, inp, rec)))
  }

  /** Step 1 of `chain_run`. */
  method RunRecommendation(db: Database, inp: ChainInput) returns (r: Result<Option<RecommendReport>, ChainError>)
    ensures r == RecommendSection(db, inp)
  {
    var hasReaction := Present(inp.reaction) || Present(inp.reactionType);
    if !hasReaction {
      return Ok(None);
    }
    var reaction := PyOr(Get(inp.reaction), Get(inp.reactionType));
    if reaction.None? {
      return Err(MissingReaction);
    }
    var substrate := PyOr(Get(inp.substrate), Get(inp.smiles));
    var constraints := GetOr(Get(inp.constraints), NO_CONSTRAINTS);
    var enantio := GetOr(Get(inp.enantioselective), false);
    var rep := Recommend(db, reaction.value, substrate, constraints, enantio);
    if rep.Err? {
      return Err(RecommendFailed(rep.error));
    }
    return Ok(Some(rep.value));
  }

  /** Step 2 of `chain_run`. */
  method RunDesign(tk: Toolkit, inp: ChainInput) returns (r: Result<Option<DesignReport>, ChainError>)
    ensures r == DesignSection(tk, inp)
  {
    var hasScaffold := Present(inp.scaffold) || Present(inp.ligand);
    if !hasScaffold {
      return Ok(None);
    }
    var scaffold := PyOr(Get(inp.scaffold), Get(inp.ligand));
    if scaffold.None? {
      return Err(MissingScaffold);
    }
    var d := DesignLigands(tk, scaffold.value, GetDefault(inp.strategy, "all"));
    return Ok(Some(d));
  }

  /** Step 3 of `chain_run`, with the `for ... break` scan of the database. */
  method RunOptimization(tk: Toolkit, db: Database, inp: ChainInput, rec: Option<RecommendReport>)
    returns (optimization: Option<DesignReport>)
    ensures optimization == Optimization(tk, db, inp, rec)
  {
    optimization := None;
    var hasReaction := Present(inp.reaction) || Present(inp.reactionType);
    var hasScaffold := Present(inp.scaffold) || Present(inp.ligand);
    if hasReaction && !hasScaffold && rec.Some? && rec.value.results != [] {
      var top := rec.value.results[0];
      if top.abbreviation != "" {
        var cats := db.catalysts;
        var i := 0;
        while i < |cats|
          invariant i <= |cats|
          invariant optimization.None?
          invariant FirstLigandSmiles(cats, top.catalystId) == FirstLigandSmiles(cats[i..], top.catalystId)
        {
          var cat := cats[i];
          if cat.id == top.catalystId && Truthy(cat.ligandSmiles) {
            var d := DesignLigands(tk, cat.ligandSmiles.value, Some("all"));
            optimization := Some(d);
            break;
          }
          assert cats[i..][1..] == cats[i + 1..];
          i := i + 1;
        }
      }
    }
  }

  /** The unified output: the status and the `recommend_next` set. */
  method BuildOutput(context: Option<string>, recommendation: Option<RecommendReport>, ligandDesign: Option<DesignReport>,
                     optimization: Option<DesignReport>) returns (report: ChainReport)
    ensures report == Assemble(context, recommendation, ligandDesign, optimization)
  {
    var status := if recommendation.Some? || ligandDesign.Some? || optimization.Some? then "success" else "error";
    var next: seq<string> := [];
    if recommendation.Some? && recommendation.value.results != [] {
      next := next + ["chemistry-query", "pharmacology"];
    }
    if ligandDesign.Some? && DesignVariants(ligandDesign.value) != [] {
      next := next + ["ip-expansion", "chemistry-query"];
    }
    assert next == Hints(recommendation, ligandDesign);
    report := ChainReport(context, status, recommendation, ligandDesign, optimization, SortedSet(next));
  }

  method ChainRun(tk: Toolkit, db: Database, inp: ChainInput) returns (out: Result<ChainReport, ChainError>)
    ensures out == ChainSpec(tk, db, inp)
  {
    var context := GetDefault(inp.context, "user");
    var rec := RunRecommendation(db, inp);
    if rec.Err? {
      return Err(rec.error);
    }
    var design := RunDesign(tk, inp);
    if design.Err? {
      return Err(design.error);
    }
    var recommendation := rec.value;
    var ligandDesign := design.value;
    var optimization := RunOptimization(tk, db, inp, recommendation);

    var report := BuildOutput(context, recommendation, ligandDesign, optimization);
    out := Ok(report);
  }

  /** The sections follow key presence, not truthiness: `recommendation` is
      there exactly when a reaction key is, `ligand_design` exactly when a
      scaffold key is; a present key whose `or` chain yields None raises. */
  lemma ChainRouting(tk: Toolkit, db: Database, inp: ChainInput)
    ensures ChainSpec(tk, db, inp).Ok? ==>
      && (ChainSpec(tk, db, inp).value.recommendation.Some? <==> HasReaction(inp))
      && (ChainSpec(tk, db, inp).value.ligandDesign.Some? <==> HasScaffold(inp))
    ensures HasReaction(inp) && PyOr(Get(inp.reaction), Get(inp.reactionType)).None? ==>
      ChainSpec(tk, db, inp) == Err(MissingReaction)
    ensures (RecommendSection(db, inp).Ok? && HasScaffold(inp) && PyOr(Get(inp.scaffold), Get(inp.ligand)).None?) ==>
      ChainSpec(tk, db, inp) == Err(MissingScaffold)
  {
  }

  /** A key holding null counts as present: a null reaction with no value
      under `reaction_type` raises rather than being skipped. */
  lemma NullReactionRaises(tk: Toolkit, db: Database, inp: ChainInput)
    ensures inp.reaction.Null? && !inp.reactionType.Value? ==> ChainSpec(tk, db, inp) == Err(MissingReaction)
  {
    if inp.reaction.Null? && !inp.reactionType.Value? {
      assert RecommendSection(db, inp) == Err(MissingReaction);
    }
  }

  /** Likewise a null scaffold with no value under `ligand` raises. */
  lemma NullScaffoldRaises(tk: Toolkit, db: Database, inp: ChainInput)
    ensures !HasReaction(inp) && inp.scaffold.Null? && !inp.ligand.Value? ==>
      ChainSpec(tk, db, inp) == Err(MissingScaffold)
  {
    if !HasReaction(inp) && inp.scaffold.Null? && !inp.ligand.Value? {
      assert RecommendSection(db, inp) == Ok(None);
      assert DesignSection(tk, inp) == Err(MissingScaffold);
    }
  }

  /** A null strategy is not the default "all": the design runs no generator. */
  lemma NullStrategyRunsNothing(tk: Toolkit, db: Database, inp: ChainInput)
    ensures ChainSpec(tk, db, inp).Ok? && HasScaffold(inp) && inp.strategy.Null? ==>
      DesignVariants(ChainSpec(tk, db, inp).value.ligandDesign.value) == []
  {
    if ChainSpec(tk, db, inp).Ok? && HasScaffold(inp) && inp.strategy.Null? {
      var scaffold := PyOr(Get(inp.scaffold), Get(inp.ligand));
      assert DesignSection(tk, inp).Ok?;
      assert DesignSection(tk, inp) == Ok(Some(DesignSpec(tk, scaffold.value, None)));
      assert Selected(tk, ResolveScaffold(scaffold.value), None) == [];
    }
  }

  /** The optimisation section exists exactly for a reaction without a
      scaffold whose top result has an abbreviation and whose catalyst record
      has ligand SMILES; it is then the full design of those SMILES. */
  lemma ChainAutoOptimization(tk: Toolkit, db: Database, inp: ChainInput)
    requires ChainSpec(tk, db, inp).Ok?
    ensures var rep := ChainSpec(tk, db, inp).value;
      && (rep.ligandOptimization.Some? <==>
          && HasReaction(inp) && !HasScaffold(inp)
          && rep.recommendation.value.results != []
          && rep.recommendation.value.results[0].abbreviation != ""
          && exists j :: 0 <= j < |db.catalysts| &&
               Supplies(db.catalysts[j], rep.recommendation.value.results[0].catalystId))
      && (rep.ligandOptimization.Some? ==>
          rep.ligandOptimization.value ==
            DesignSpec(tk, FirstLigandSmiles(db.catalysts, rep.recommendation.value.results[0].catalystId).value, Some("all")))
  {
    var rep := ChainSpec(tk, db, inp).value;
    if HasReaction(inp) && rep.recommendation.value.results != [] {
      FirstLigandSmilesSpec(db.catalysts, rep.recommendation.value.results[0].catalystId);
    }
  }

  /** The status is "success" exactly when a reaction or scaffold key is
      present, and the context echoes the input: "user" for an absent key,
      None for null. */
  lemma ChainStatus(tk: Toolkit, db: Database, inp: ChainInput)
    requires ChainSpec(tk, db, inp).Ok?
    ensures ChainSpec(tk, db, inp).value.status == "success" <==> HasReaction(inp) || HasScaffold(inp)
    ensures inp.context.Value? ==> ChainSpec(tk, db, inp).value.context == Some(inp.context.v)
    ensures inp.context.Absent? ==> ChainSpec(tk, db, inp).value.context == Some("user")
    ensures inp.context.Null? ==> ChainSpec(tk, db, inp).value.context.None?
  {
  }

  /** The sorted hint list: pharmacology exactly when there are
      recommendation results, ip-expansion exactly when the design has
      variants, chemistry-query when either holds, and nothing else. */
  lemma HintsSpec(rec: Option<RecommendReport>, design: Option<DesignReport>)
    ensures var next := SortedSet(Hints(rec, design));
      var hasResults := rec.Some? && rec.value.results != [];
      var hasVariants := design.Some? && DesignVariants(design.value) != [];
      && StrictlySorted(next)
      && ("pharmacology" in next <==> hasResults)
      && ("ip-expansion" in next <==> hasVariants)
      && ("chemistry-query" in next <==> hasResults || hasVariants)
      && (forall h :: h in next ==> h in ["chemistry-query", "ip-expansion", "pharmacology"])
  {
    HintListMembers(rec.Some? && rec.value.results != [], design.Some? && DesignVariants(design.value) != []);
  }

  /** The hint names a pair of flags contributes, before sorting. */
  lemma HintListMembers(hasResults: bool, hasVariants: bool)
    ensures var l := (if hasResults then ["chemistry-query", "pharmacology"] else []) +
                     (if hasVariants then ["ip-expansion", "chemistry-query"] else []);
      && ("pharmacology" in l <==> hasResults)
      && ("ip-expansion" in l <==> hasVariants)
      && ("chemistry-query" in l <==> hasResults || hasVariants)
      && (forall h :: h in l ==> h in ["chemistry-query", "ip-expansion", "pharmacology"])
  {
    assert "pharmacology"[0] == 'p' && "ip-expansion"[0] == 'i' && "chemistry-query"[0] == 'c';
  }

  /** `recommend_next` is the sorted hint list of the two first sections, so
      the optimisation section has no say in it. */
  lemma ChainRecommendNext(tk: Toolkit, db: Database, inp: ChainInput)
    requires ChainSpec(tk, db, inp).Ok?
    ensures var rep := ChainSpec(tk, db, inp).value;
      var hasResults := rep.recommendation.Some? && rep.recommendation.value.results != [];
      var hasVariants := rep.ligandDesign.Some? && DesignVariants(rep.ligandDesign.value) != [];
      && StrictlySorted(rep.recommendNext)
      && ("pharmacology" in rep.recommendNext <==> hasResults)
      && ("ip-expansion" in rep.recommendNext <==> hasVariants)
      && ("chemistry-query" in rep.recommendNext <==> hasResults || hasVariants)
      && (forall h :: h in rep.recommendNext ==> h in ["chemistry-query", "ip-expansion", "pharmacology"])
  {
    var rep := ChainSpec(tk, db, inp).value;
    HintsSpec(rep.recommendation, rep.ligandDesign);
  }

  /** With both kinds of hint the list is exactly the three names in order. */
  lemma ChainRecommendNextBoth(rec: Option<RecommendReport>, design: Option<DesignReport>)
    requires rec.Some? && rec.value.results != []
    requires design.Some? && DesignVariants(design.value) != []
    ensures SortedSet(Hints(rec, design)) == ["chemistry-query", "ip-expansion", "pharmacology"]
  {
    var expected := ["chemistry-query", "ip-expansion", "pharmacology"];
    assert LexLess("chemistry-query", "ip-expansion");
    assert LexLess("ip-expansion", "pharmacology");
    LexLessTransitive("chemistry-query", "ip-expansion", "pharmacology");
    assert StrictlySorted(expected);
    SortedUnique(SortedSet(Hints(rec, design)), expected);
  }
}
