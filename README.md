# Catalyst design agent: a Dafny model

This project models the catalyst-design skill of the PharmaClaw agent. The
skill has three parts:

- the **catalyst recommender** (`catalyst_recommend.py`): it normalises a
  reaction name against the knowledge base's reaction-type map, scores every
  catalyst record, and returns the positive scores ranked;
- the **ligand designer** (`ligand_designer.py`): it resolves a scaffold alias
  and runs up to three generators. The steric and electronic generators are
  substituent loops on aromatic carbons. The bioisosteric generator gives
  feature-gated suggestions. The designer then assembles a report;
- the **chain entry point** (`chain_entry.py`): it routes a request on the
  keys it carries, optionally optimises the ligand of the top catalyst, and
  builds the unified report with its sorted `recommend_next` hints.

The Python code is imperative, and so is the model. Each Python function with
a loop becomes a Dafny `method` with that loop, and its `ensures` ties the
result to a specification function. Its properties are lemmas about that
function. The modules are:

- `Common`: Option and Result, a JSON key that is absent, null or holds a
  value, Python truthiness, `get(a) or get(b)` and `get(key, default)`;
- `Collections`: `list(set(...))`, `list.index`, dictionary lookup on an
  association list, subsequences, and the list of successful passes of a loop;
- `Strings`: `strip`, `lower`, the substring test, Python's string order and
  `sorted(set(...))`;
- `CatalystRecommend`, `LigandDesigner` and `ChainEntry`: one module per
  source file.

The knowledge base is a `Database` value passed in, not a file that is
loaded. The chemistry toolkit (RDKit) is a `Toolkit` value with five total
functions: parse, canonical SMILES, descriptors, add hydrogens, and attach a
fragment and sanitise. Each of the toolkit's exceptions becomes a `None`
result. Every `try ... except: continue/pass` in the generators is then the
skip of one substituent. A Python exception on the main path becomes an
`Err` of a `Result`:

- `list.index` on an unknown cost tier, or on a `max_cost` holding null;
- a present `reaction` or `reaction_type` key whose `or` chain yields None
  (the key holds null, or is empty with nothing under the other key):
  `normalize_reaction` fails at `None.strip()` (`MissingReaction`);
- a present `scaffold` or `ligand` key whose `or` chain yields None:
  `resolve_scaffold(None)` returns None and `Chem.MolFromSmiles(None)` fails
  in `compute_ligand_props` (`MissingScaffold`).

Input keys are JSON values, so the model tells an absent key from one that
holds null. The code does too: `key in d` counts a null key as present, and
`d.get(key, default)` gives the default for an absent key only. A null
`strategy` therefore runs no generator, a null `context` is echoed as null,
and a null `max_cost` raises instead of meaning very_high.

## Where the code and the design description differ

The model follows the code in each case:

- **Normalisation order.** The design describes an ordered rule chain: exact,
  then alias, then substring. The code returns an exact key alone. Otherwise
  it returns the union of the substring hits and the alias expansion, with
  duplicates removed (`NormalizeFuzzyUnion`). The code also strips
  surrounding whitespace before lower-casing.
- **Neither reaction nor scaffold.** The design calls this InvalidInput. The
  code returns a report with status "error" and no sections
  (`ChainEntry.ChainStatus`).
- **Unknown cost tier.** The design has every operation return a status. The
  code raises ValueError from `list.index` for an unknown `cost_relative` or
  `max_cost`, and the error reaches the caller of `recommend` and
  `chain_run` (`CostBonusGate`, `CollectErrorSticks`, `ChainSpec`).
- **Rounding before ranking.** Scores are rounded to one decimal before
  ranking, and the sort compares the rounded values. Two catalysts whose
  scores differ but round alike therefore keep database order. A positive
  score under 0.05 would be reported as 0.0. So the model proves results in
  [0, 100], not (0, 100] (`CollectedResultsValid`).
- **Auto-optimisation.** This needs more than a top result with ligand
  SMILES. The top result must also have a non-empty abbreviation, and the
  first record with its id and non-empty `ligand_smiles` is the one used
  (`ChainAutoOptimization`). The comment at chain_entry.py:50 says this step
  runs when both a reaction and a scaffold are given, but the code tests
  `not has_scaffold`, so it runs only when no scaffold is given. The model
  follows the code.

## Model

| member | source | states |
|---|---|---|
| Common.PyOr | api/skills/catalyst/chain_entry.py:37-38 | `a or b` on optional strings is one of the two lookups, the first one when it is truthy. It is None exactly when the first is falsy and the second is missing, and it is truthy exactly when either lookup is |
| Collections.Dedup | api/skills/catalyst/catalyst_recommend.py:51 | `list(set(matches))` has no duplicates, has exactly the elements of its input, and is no longer than it |
| Collections.IndexOf | api/skills/catalyst/catalyst_recommend.py:67-69 | `list.index`: the first position holding the value, and None (ValueError) exactly when it is absent |
| Strings.SortedSet | api/skills/catalyst/catalyst_recommend.py:120 | `sorted(set(xs))` is strictly increasing in Python's string order and has exactly the elements of `xs` |
| Strings.SortedUnique | api/skills/catalyst/chain_entry.py:78 | two strictly sorted lists with the same elements are equal, so `sorted(set(...))` has one possible result |
| Strings.Strip | api/skills/catalyst/catalyst_recommend.py:29 | `strip()` returns a slice of its input. Everything cut off before or after the slice is whitespace, and the slice neither starts nor ends with whitespace |
| CatalystRecommend.CanonicalToken | api/skills/catalyst/catalyst_recommend.py:29 | the token has the length of the stripped input, and each character is that input's character lower-cased, with `-` and space turned into `_`. So it has no hyphen, no space, no upper-case letter and no whitespace at either end |
| CatalystRecommend.CanonicalTokenIdempotent | api/skills/catalyst/catalyst_recommend.py:29-32 | canonicalising a canonical token changes nothing |
| CatalystRecommend.NormalizeReaction | api/skills/catalyst/catalyst_recommend.py:27-51 | the scan over the reaction map returns exactly `Normalize` |
| CatalystRecommend.NormalizeExactKey | api/skills/catalyst/catalyst_recommend.py:29-32 | a token that is a key of the map comes back alone |
| CatalystRecommend.NormalizeFuzzyUnion | api/skills/catalyst/catalyst_recommend.py:33-51 | with no exact key and some hit: no duplicates, and a key is returned iff the token is a substring of it or of its lower-cased description, or the alias table lists it for the token |
| CatalystRecommend.NormalizeFallback | api/skills/catalyst/catalyst_recommend.py:49-51 | no exact key, no substring hit and no alias give the token itself as the only type |
| CatalystRecommend.NormalizeNeverEmpty | api/skills/catalyst/catalyst_recommend.py:27-51 | the normalised list is never empty, so the division by its length is defined |
| CatalystRecommend.AliasRcm | api/skills/catalyst/catalyst_recommend.py:45 | the alias "rcm" expands to ring-closing metathesis alone |
| CatalystRecommend.NormalizeRcm | api/skills/catalyst/catalyst_recommend.py:39-51 | "rcm" normalises to a list holding "ring_closing_metathesis" when it is not a key itself |
| CatalystRecommend.NormalizeSuzuki | api/skills/catalyst/catalyst_recommend.py:29-32 | "Suzuki" normalises to exactly ["suzuki"] when "suzuki" is a key |
| CatalystRecommend.ScoreCatalyst | api/skills/catalyst/catalyst_recommend.py:54-100 | the additive scorer returns exactly `Score`, including its ValueError |
| CatalystRecommend.CostBonus | api/skills/catalyst/catalyst_recommend.py:64-70 | the cost part is between 0 and 15 when it is defined |
| CatalystRecommend.CostBonusGate | api/skills/catalyst/catalyst_recommend.py:64-70 | an unknown catalyst tier raises first, then an unknown or null `max_cost`. With known tiers the tier's points are paid exactly when it is no dearer than `max_cost`, and always under the default very_high |
| CatalystRecommend.NullMaxCostRaises | api/skills/catalyst/catalyst_recommend.py:66-69 | with a match and a known catalyst tier, a `max_cost` holding null raises ValueError, while an absent `max_cost` never does |
| CatalystRecommend.CoverageBound | api/skills/catalyst/catalyst_recommend.py:62 | coverage is in (0, 50] when at least one type matches |
| CatalystRecommend.MatchedWithinRequest | api/skills/catalyst/catalyst_recommend.py:59 | the matched set is no larger than the request list |
| CatalystRecommend.ScoreNeverClipped | api/skills/catalyst/catalyst_recommend.py:58-100 | with a match and known tiers the parts sum to a value in (0, 100], so the clip at 100 never changes a score |
| CatalystRecommend.ScoreZeroIffNoMatch | api/skills/catalyst/catalyst_recommend.py:59-61 | the score is 0 exactly when no type matches. Any score is in [0, 100]. With a match the scorer raises exactly when a cost tier is unknown |
| CatalystRecommend.EnantioselectiveEffect | api/skills/catalyst/catalyst_recommend.py:82-88 | asking for enantioselectivity adds 10 (asymmetric type), else 5 (BINAP ligand or "chiral" name), else 0; nothing else moves |
| CatalystRecommend.Round1 | api/skills/catalyst/catalyst_recommend.py:119 | `round(score, 1)` is a multiple of 0.1 within 0.05 of the score, and stays in [0, 100] |
| CatalystRecommend.CommonTypes | api/skills/catalyst/catalyst_recommend.py:120 | the matched reactions are exactly the catalyst's types that were requested |
| CatalystRecommend.CollectErrorSticks | api/skills/catalyst/catalyst_recommend.py:110-111 | once one catalyst's scoring raises, the whole scan raises that error |
| CatalystRecommend.CollectMatches | api/skills/catalyst/catalyst_recommend.py:109-127 | the loop over the catalysts returns exactly `CollectResults`: positive scores in database order, or the first error |
| CatalystRecommend.CollectedResultsValid | api/skills/catalyst/catalyst_recommend.py:110-127 | every collected result has a score in [0, 100] and a non-empty, strictly sorted `matched_reactions`. It is the result of a database record whose score is above zero: it has that record's id, its score is that record's score rounded to a tenth, and its `matched_reactions` are exactly that record's matched types. Conversely, every record whose score is above zero has its result in the list |
| CatalystRecommend.SortByScoreProps | api/skills/catalyst/catalyst_recommend.py:129 | `sort(key=score, reverse=True)` is non-increasing, a permutation, and keeps the entries of equal score in their original order |
| CatalystRecommend.Recommend | api/skills/catalyst/catalyst_recommend.py:103-146 | `recommend` returns exactly `RecommendSpec`, or the scorer's error |
| CatalystRecommend.RecommendReportValid | api/skills/catalyst/catalyst_recommend.py:109-146 | every result is valid and is the result of a database record scoring above zero. Every such record's result is in the report. Results are in non-increasing score order, a permutation of the collected ones, with ties in database order. `total_matches` is their number. Status is "success", with no suggestion, exactly when there are results |
| LigandDesigner.ComputeLigandProps | api/skills/catalyst/ligand_designer.py:70-87 | no properties exactly when the SMILES does not parse; the phosphorus and nitrogen flags say whether such an atom exists |
| LigandDesigner.ResolveScaffoldSpec | api/skills/catalyst/ligand_designer.py:28-37 | a name of the alias table resolves to its SMILES, anything else to itself |
| LigandDesigner.ResolveScaffoldIdempotent | api/skills/catalyst/ligand_designer.py:65-67 | resolving a resolved scaffold changes nothing |
| LigandDesigner.FindNeighbor | api/skills/catalyst/ligand_designer.py:113-116 | the neighbour scan with `break` finds nothing exactly when no neighbour has the symbol; what it finds is a neighbour with that symbol |
| LigandDesigner.AromaticCH | api/skills/catalyst/ligand_designer.py:110-116 | the `aromatic_ch` loop returns exactly the steric sites in atom order |
| LigandDesigner.SitesUpToSpec | api/skills/catalyst/ligand_designer.py:176-178 | an index is listed iff it is a site, and the list is strictly increasing. A steric site is an aromatic carbon with an H neighbour; an electronic site is an aromatic carbon with no P neighbour |
| LigandDesigner.SitesEnds | api/skills/catalyst/ligand_designer.py:176-184 | the site list is empty iff no atom qualifies; its first and last entries are sites that bound every other site |
| LigandDesigner.TargetSpec | api/skills/catalyst/ligand_designer.py:118-121 | the steric target is the lowest site of the molecule with hydrogens, the electronic target the highest site, and there is none exactly when no atom qualifies |
| LigandDesigner.GenerateStericVariants | api/skills/catalyst/ligand_designer.py:90-153 | the steric loop returns exactly the successful attempts in substituent order |
| LigandDesigner.GenerateElectronicVariants | api/skills/catalyst/ligand_designer.py:156-204 | the electronic loop returns exactly the successful attempts in substituent order |
| LigandDesigner.AttemptShape | api/skills/catalyst/ligand_designer.py:142-147 | a successful attempt is tagged with its generator, carries properties, and is named after its substituent |
| LigandDesigner.VariantsSpec | api/skills/catalyst/ligand_designer.py:99-204 | at most three variants, each tagged and with properties, in substituent order. A substituent's variant is present iff its attempt succeeds, so a failure skips only that substituent |
| LigandDesigner.NoVariantsWithoutSite | api/skills/catalyst/ligand_designer.py:92-94 | an unparsable SMILES gives no entries from any generator, and a molecule without a site gives none from the loop |
| LigandDesigner.BioisostericSpec | api/skills/catalyst/ligand_designer.py:207-250 | two suggestions if there is phosphorus, then two if there is an aromatic atom, all tagged "bioisosteric" and without properties |
| LigandDesigner.PartTags | api/skills/catalyst/ligand_designer.py:145-221 | each generator's entries carry that generator's tag |
| LigandDesigner.DesignLigands | api/skills/catalyst/ligand_designer.py:253-309 | `design_ligands` returns exactly `DesignSpec` |
| LigandDesigner.DesignFailsIffUnparsable | api/skills/catalyst/ligand_designer.py:255-265 | the error report comes exactly when the resolved SMILES does not parse; it names that SMILES and has no variants |
| LigandDesigner.DesignDispatch | api/skills/catalyst/ligand_designer.py:267-303 | the entries of each tag are that generator's list when the strategy names it or is "all", and empty otherwise. The list is the steric entries, then the electronic ones, then the bioisosteric ones. Any other strategy, null included, gives no variants. `total_variants` is the list's length |
| ChainEntry.FirstLigandSmilesSpec | api/skills/catalyst/chain_entry.py:57-62 | the scan stops at the first record with the top id and non-empty ligand SMILES, and finds nothing exactly when there is none |
| ChainEntry.RunRecommendation | api/skills/catalyst/chain_entry.py:36-41 | step 1 returns exactly `RecommendSection` |
| ChainEntry.RunDesign | api/skills/catalyst/chain_entry.py:44-48 | step 2 returns exactly `DesignSection` |
| ChainEntry.RunOptimization | api/skills/catalyst/chain_entry.py:50-62 | step 3, with its `for ... break` scan, returns exactly `Optimization` |
| ChainEntry.BuildOutput | api/skills/catalyst/chain_entry.py:64-80 | the unified output is exactly `Assemble` |
| ChainEntry.ChainRun | api/skills/catalyst/chain_entry.py:26-80 | `chain_run` returns exactly `ChainSpec`, or the error it raises |
| ChainEntry.ChainRouting | api/skills/catalyst/chain_entry.py:31-48 | `recommendation` is present iff a reaction key is, and `ligand_design` iff a scaffold key is. A present key whose `or` chain gives None raises |
| ChainEntry.ChainAutoOptimization | api/skills/catalyst/chain_entry.py:50-62 | `ligand_optimization` is present iff there is a reaction and no scaffold, the top result has an abbreviation, and some record supplies its ligand SMILES. It is then the "all" design of those SMILES |
| ChainEntry.ChainStatus | api/skills/catalyst/chain_entry.py:28-65 | the status is "success" iff a reaction or scaffold key is present. The context echoes the input: "user" when the key is absent, null when it holds null |
| ChainEntry.NullReactionRaises | api/skills/catalyst/chain_entry.py:32-41 | a `reaction` holding null counts as present, so with no value under `reaction_type` `chain_run` raises |
| ChainEntry.NullScaffoldRaises | api/skills/catalyst/chain_entry.py:33-48 | without a reaction, a `scaffold` holding null with no value under `ligand` makes `chain_run` raise |
| ChainEntry.NullStrategyRunsNothing | api/skills/catalyst/chain_entry.py:46-48 | a `strategy` holding null is passed on as None, so the design runs no generator and has no variants |
| ChainEntry.HintsSpec | api/skills/catalyst/chain_entry.py:66-78 | the hint list is strictly sorted. It has "pharmacology" iff there are results, "ip-expansion" iff there are variants, "chemistry-query" iff either, and nothing else |
| ChainEntry.ChainRecommendNext | api/skills/catalyst/chain_entry.py:64-78 | the report's `recommend_next` has exactly those hints, and the optimisation section does not affect it |
| ChainEntry.ChainRecommendNextBoth | api/skills/catalyst/chain_entry.py:66-78 | with results and variants the list is exactly ["chemistry-query", "ip-expansion", "pharmacology"] |

## Left out

- Loading the knowledge base (`load_database`): the database is a parameter, and `chain_run` uses the same value when it loads the file again.
- The CLI `main` functions, JSON printing, timestamps, and the constant `agent`, `version` and `action` entries of the reports.
- `api/main.py`: the HTTP layer is not part of this model.
- Structure drawing (`draw`, `output` and the `viz` paths) and writing the report to a file are side effects outside the computation.
- The unused `STERIC_MODS`, `ELECTRONIC_MODS` and `BIOISOSTERIC_MODS` tables are not modelled, because no function reads them.
- The chemistry itself is not modelled. Parsing, canonical SMILES, descriptor values, hydrogen addition and fragment attachment are the `Toolkit` parameter. `Chem.RemoveHs(mol)` is taken to be the parsed molecule, and an exception from `AddHs` is not modelled.
- Floating point is not modelled: scores are exact reals. `Round1` rounds the exact value half-to-even rather than the binary float, and descriptor values are opaque reals from the toolkit.
- `Strings.Lower` and `Strings.Strip` cover ASCII letters and ASCII whitespace only. Unicode case mapping and Unicode spaces are not modelled.
- Collections.Dedup: `list(set(...))` is taken in first-occurrence order. Python's order depends on string hashes, so the model's membership facts hold but its order is one particular choice.
- Loosely typed JSON records are not modelled: catalyst fields are typed, with no missing keys or null values. So the defaults of `catalyst.get(...)` (cost "medium", loading [5, 10], an empty ligand or name) never apply, nor does a KeyError for a missing field.
- Input keys of the wrong JSON type (a number under `reaction`, a string under `constraints`) are not modelled: a key holds null or a value of the type the code expects.
- A null `enantioselective` is read as false. The scoring is the same, because None is falsy, but the query echoed in the recommendation report shows false where the code shows null. A null `prefer_metal` is likewise echoed as an absent one. `prefer_earth_abundant` is held as a boolean, so an absent, a null and a false value are echoed alike. Keys of `constraints` the scorer does not read are dropped from the echoed query, which in the code is the dictionary as given.
- A neighbour index outside the molecule names no atom (`LigandDesigner.NeighborIs`); the toolkit never produces one.
- LigandDesigner.Text: the description, rationale and literature of the four bioisosteric suggestions are literal texts held once in `Text`, and no lemma states anything about them.
