/** The ligand variant generator of the catalyst agent
    (api/skills/catalyst/ligand_designer.py): alias resolution, site
    selection on an abstract molecule, the try-and-skip loops over
    substituents, the feature-gated bioisosteric suggestions and the strategy
    dispatch of `design_ligands`. The cheminformatics toolkit is a parameter. */
module LigandDesigner {
  import opened Common
  import opened Collections

  // ---------------------------------------------------------------------
  // Molecules and the toolkit

  /** An atom: its element symbol, its aromatic flag and the indices of the
      atoms bonded to it. */
  datatype Atom = Atom(symbol: string, aromatic: bool, neighbors: seq<nat>)

  datatype Molecule = Molecule(atoms: seq<Atom>)

  /** The numeric descriptors `compute_ligand_props` reports, as the toolkit
      computes them. */
  datatype Descriptors = Descriptors(
    molWt: real,
    logP: real,
    hba: nat,
    hbd: nat,
    rotatableBonds: nat,
    aromaticRings: nat,
    heavyAtoms: nat,
    stereocenters: nat)

  /** The toolkit calls the generator relies on:
      - `parse`: SMILES to molecule, None where parsing fails;
      - `canonical`: the canonical SMILES of a molecule;
      - `describe`: the numeric descriptors;
      - `addHydrogens`: the molecule with explicit hydrogens appended;
      - `attach`: combine a molecule with a substituent, bond the
        substituent's first atom to the given atom, sanitise, and give the
        new SMILES, or None where sanitisation raises. */
  datatype Toolkit = Toolkit(
    parse: string -> Option<Molecule>,
    canonical: Molecule -> string,
    describe: Molecule -> Descriptors,
    addHydrogens: Molecule -> Molecule,
    attach: (Molecule, Molecule, nat) -> Option<string>)

  datatype LigandProps = LigandProps(
    smiles: string,
    descriptors: Descriptors,
    hasPhosphorus: bool,
    hasNitrogen: bool)

  /** The four fixed suggestions of `generate_bioisosteric_suggestions`. */
  datatype Suggestion = NhcReplacement | PhosphiteSwap | PyridylSwap | MesitylSwap

  /** One entry of a variant list: a variant a substituent loop built, with
      the properties of the product, or one of the fixed bioisosteric
      suggestions, which carry no properties. */
  datatype Variant =
    | Generated(modification: string, description: string, strategy: string, properties: LigandProps)
    | Suggested(suggestion: Suggestion)
  {
    function Strategy(): string {
      if Generated? then strategy else "bioisosteric"
    }

    function Properties(): Option<LigandProps> {
      if Generated? then Some(properties) else None
    }

    function Modification(): string {
      if Generated? then modification else SuggestionName(suggestion)
    }
  }

  predicate HasSymbol(m: Molecule, sym: string) {
    exists i :: 0 <= i < |m.atoms| && m.atoms[i].symbol == sym
  }

  predicate HasAromatic(m: Molecule) {
    exists i :: 0 <= i < |m.atoms| && m.atoms[i].aromatic
  }

  /** `compute_ligand_props`: None exactly when the SMILES does not parse,
      otherwise the canonical SMILES, the descriptors and whether the
      molecule holds a phosphorus and a nitrogen atom. */
  function ComputeLigandProps(tk: Toolkit, smiles: string): (r: Option<LigandProps>)
    ensures r.None? <==> tk.parse(smiles).None?
    ensures r.Some? ==>
      && r.value.hasPhosphorus == HasSymbol(tk.parse(smiles).value, "P")
      && r.value.hasNitrogen == HasSymbol(tk.parse(smiles).value, "N")
  {
    match tk.parse(smiles)
    case None => None
    case Some(mol) =>
      Some(LigandProps(tk.canonical(mol), tk.describe(mol), HasSymbol(mol, "P"), HasSymbol(mol, "N")))
  }

  // ---------------------------------------------------------------------
  // Scaffold aliases

  const TRIPHENYLPHOSPHINE := "c1ccc(cc1)P(c1ccccc1)c1ccccc1"
  const TRICYCLOHEXYLPHOSPHINE := "C1(CCCCC1)P(C1CCCCC1)C1CCCCC1"

  /** `LIGAND_ALIASES`, as (name, SMILES) pairs in dictionary order. */
  const LIGAND_ALIASES: seq<(string, string)> := [
    ("PPh3", TRIPHENYLPHOSPHINE),
    ("triphenylphosphine", TRIPHENYLPHOSPHINE),
    ("PCy3", TRICYCLOHEXYLPHOSPHINE),
    ("tricyclohexylphosphine", TRICYCLOHEXYLPHOSPHINE),
    ("dppe", "c1ccc(cc1)P(CCP(c1ccccc1)c1ccccc1)c1ccccc1"),
    ("dppp", "c1ccc(cc1)P(CCCP(c1ccccc1)c1ccccc1)c1ccccc1"),
    ("NHC_IMes", "Cc1cc(C)cc(c1)N1C=CN(c2cc(C)cc(C)c2)C1"),
    ("NHC_IPr", "CC(C)c1cccc(C(C)C)c1N1C=CN(c2c(C(C)C)cccc2C(C)C)C1")
  ]

  /** `LIGAND_ALIASES.get(scaffold, scaffold)`. */
  function ResolveScaffold(scaffold: string): string {
    GetOr(Find(LIGAND_ALIASES, scaffold), scaffold)
  }

  /** A name of the table resolves to its own SMILES, anything else to itself. */
  lemma ResolveScaffoldSpec(scaffold: string)
    ensures forall i :: 0 <= i < |LIGAND_ALIASES| && LIGAND_ALIASES[i].0 == scaffold ==>
      ResolveScaffold(scaffold) == LIGAND_ALIASES[i].1
    ensures scaffold !in Keys(LIGAND_ALIASES) ==> ResolveScaffold(scaffold) == scaffold
  {
    assert NoDup(Keys(LIGAND_ALIASES));
    forall i | 0 <= i < |LIGAND_ALIASES| && LIGAND_ALIASES[i].0 == scaffold
      ensures ResolveScaffold(scaffold) == LIGAND_ALIASES[i].1
    {
      FindDistinct(LIGAND_ALIASES, i);
    }
  }

  /** No alias expands to another alias, so resolving twice changes nothing. */
  lemma ResolveScaffoldIdempotent(scaffold: string)
    ensures ResolveScaffold(ResolveScaffold(scaffold)) == ResolveScaffold(scaffold)
  {
    if scaffold in Keys(LIGAND_ALIASES) {
      // Every name is at most 22 characters long, every SMILES at least 29.
      assert forall i :: 0 <= i < |LIGAND_ALIASES| ==> |LIGAND_ALIASES[i].0| <= 22 < 29 <= |LIGAND_ALIASES[i].1|;
      assert |ResolveScaffold(scaffold)| >= 29;
    }
  }

  // ---------------------------------------------------------------------
  // Site selection

  /** The two substituent loops: steric bulk and electronic tuning. */
  datatype Edit = Steric | Electronic

  /** Atom `n` exists and carries symbol `sym`; a neighbour index outside the
      molecule names no atom. */
  predicate NeighborIs(m: Molecule, n: nat, sym: string) {
    n < |m.atoms| && m.atoms[n].symbol == sym
  }

  predicate HasNeighbor(m: Molecule, j: nat, sym: string)
    requires j < |m.atoms|
  {
    exists k :: 0 <= k < |m.atoms[j].neighbors| && NeighborIs(m, m.atoms[j].neighbors[k], sym)
  }

  /** A candidate site: an aromatic carbon bonded to a hydrogen (steric), or
      an aromatic carbon bonded to no phosphorus (electronic). */
  predicate IsSite(m: Molecule, kind: Edit, j: nat)
    requires j < |m.atoms|
  {
    && m.atoms[j].symbol == "C" && m.atoms[j].aromatic
    && match kind
       case Steric => HasNeighbor(m, j, "H")
       case Electronic => !HasNeighbor(m, j, "P")
  }

  function SitesUpTo(m: Molecule, kind: Edit, n: nat): seq<nat>
    requires n <= |m.atoms|
  {
    if n == 0 then []
    else SitesUpTo(m, kind, n - 1) + (if IsSite(m, kind, n - 1) then [n - 1] else [])
  }

  /** The candidate sites in atom order. */
  function Sites(m: Molecule, kind: Edit): seq<nat> {
    SitesUpTo(m, kind, |m.atoms|)
  }

  lemma {:induction false} SitesUpToSpec(m: Molecule, kind: Edit, n: nat)
    requires n <= |m.atoms|
    ensures forall j: nat :: j in SitesUpTo(m, kind, n) <==> j < n && IsSite(m, kind, j)
    ensures forall a, b :: 0 <= a < b < |SitesUpTo(m, kind, n)| ==> SitesUpTo(m, kind, n)[a] < SitesUpTo(m, kind, n)[b]
  {
    if n > 0 {
      SitesUpToSpec(m, kind, n - 1);
      var prev := SitesUpTo(m, kind, n - 1);
      assert forall a :: 0 <= a < |prev| ==> prev[a] in prev;
    }
  }

  /** The atom the substituent is bonded to: the first steric site of the
      molecule with hydrogens added, or the last electronic site. */
  function Target(tk: Toolkit, mol: Molecule, kind: Edit): Option<nat> {
    match kind
    case Steric =>
      var s := Sites(tk.addHydrogens(mol), Steric);
      if s == [] then None else Some(s[0])
    case Electronic =>
      var s := Sites(mol, Electronic);
      if s == [] then None else Some(s[|s| - 1])
  }

  /** The first and the last candidate site bound every site, and there is
      none exactly when no atom qualifies. */
  lemma SitesEnds(m: Molecule, kind: Edit)
    ensures var s := Sites(m, kind);
      && (s == [] <==> forall j :: 0 <= j < |m.atoms| ==> !IsSite(m, kind, j))
      && (s != [] ==>
          && s[0] < |m.atoms| && IsSite(m, kind, s[0])
          && s[|s| - 1] < |m.atoms| && IsSite(m, kind, s[|s| - 1])
          && (forall j :: 0 <= j < |m.atoms| && IsSite(m, kind, j) ==> s[0] <= j <= s[|s| - 1]))
  {
    SitesUpToSpec(m, kind, |m.atoms|);
    var s := Sites(m, kind);
    if s != [] {
      assert s[0] in s && s[|s| - 1] in s;
      forall j | 0 <= j < |m.atoms| && IsSite(m, kind, j) ensures s[0] <= j <= s[|s| - 1] {
        assert j in s;
        var k :| 0 <= k < |s| && s[k] == j;
        IncreasingEnds(s, k);
      }
    } else {
      forall j | 0 <= j < |m.atoms| ensures !IsSite(m, kind, j) {
        assert j !in s;
      }
    }
  }

  lemma IncreasingEnds(s: seq<nat>, k: nat)
    requires forall a, b :: 0 <= a < b < |s| ==> s[a] < s[b]
    requires k < |s|
    ensures s[0] <= s[k] <= s[|s| - 1]
  {
    if 0 < k {
      assert s[0] < s[k];
    }
    if k < |s| - 1 {
      assert s[k] < s[|s| - 1];
    }
  }

  /** The steric target is the lowest-numbered aromatic carbon with a hydrogen
      neighbour; the electronic target is the highest-numbered aromatic
      carbon without a phosphorus neighbour; with no such atom there is none. */
  lemma TargetSpec(tk: Toolkit, mol: Molecule, kind: Edit)
    ensures var m := if kind == Steric then tk.addHydrogens(mol) else mol;
      && (Target(tk, mol, kind).None? <==> forall j :: 0 <= j < |m.atoms| ==> !IsSite(m, kind, j))
      && (Target(tk, mol, kind).Some? ==>
          var t := Target(tk, mol, kind).value;
          && t < |m.atoms| && IsSite(m, kind, t)
          && (kind == Steric ==> forall j :: 0 <= j < t ==> !IsSite(m, kind, j))
          && (kind == Electronic ==> forall j :: t < j < |m.atoms| ==> !IsSite(m, kind, j)))
  {
    if kind == Steric {
      SitesEnds(tk.addHydrogens(mol), Steric);
    } else {
      SitesEnds(mol, Electronic);
    }
  }

  /** The `for neighbor in atom.GetNeighbors()` scan with its `break`: the
      first neighbour with symbol `sym`. */
  method FindNeighbor(m: Molecule, j: nat, sym: string) returns (r: Option<nat>)
    requires j < |m.atoms|
    ensures r.None? <==> !HasNeighbor(m, j, sym)
    ensures r.Some? ==> r.value in m.atoms[j].neighbors && NeighborIs(m, r.value, sym)
  {
    var nbrs := m.atoms[j].neighbors;
    var k := 0;
    while k < |nbrs|
      invariant k <= |nbrs|
      invariant forall q :: 0 <= q < k ==> !NeighborIs(m, nbrs[q], sym)
    {
      var n := nbrs[k];
      if n < |m.atoms| && m.atoms[n].symbol == sym {
        return Some(n);
      }
      k := k + 1;
    }
    return None;
  }

  /** The `aromatic_ch` loop: every aromatic carbon with a hydrogen
      neighbour, in atom order. */
  method AromaticCH(m: Molecule) returns (sites: seq<nat>)
    ensures sites == Sites(m, Steric)
  {
    sites := [];
    for j := 0 to |m.atoms|
      invariant sites == SitesUpTo(m, Steric, j)
    {
      var atom := m.atoms[j];
      if atom.symbol == "C" && atom.aromatic {
        var h := FindNeighbor(m, j, "H");
        if h.Some? {
          sites := sites + [j];
        }
      }
    }
  }

  // ---------------------------------------------------------------------
  // Substituent loops

  /** The substituent dictionaries of the two generators, in insertion order. */
  function Substituents(kind: Edit): seq<(string, string)> {
    match kind
    case Steric => [("methyl", "C"), ("isopropyl", "C(C)C"), ("tert-butyl", "C(C)(C)C")]
    case Electronic =>
      [("para-OMe (e-donating)", "OC"), ("para-F (mild e-withdrawing)", "F"),
       ("para-CF3 (e-withdrawing)", "C(F)(F)F")]
  }

  function StrategyName(kind: Edit): string {
    match kind
    case Steric => "steric"
    case Electronic => "electronic"
  }

  function ModificationName(kind: Edit, name: string): string {
    match kind
    case Steric => "steric_" + name
    case Electronic => name
  }

  function EditDescription(kind: Edit, name: string): string {
    match kind
    case Steric => "Added " + name + " group to aromatic ring"
    case Electronic => "Added " + name + " to tune electronics"
  }

  /** The variant substituent `i` would add. */
  function MakeVariant(kind: Edit, i: nat, props: LigandProps): Variant
    requires i < |Substituents(kind)|
  {
    var name := Substituents(kind)[i].0;
    Generated(ModificationName(kind, name), EditDescription(kind, name), StrategyName(kind), props)
  }

  /** One pass of a substituent loop: None wherever the source skips the
      substituent (no site, an unparsable fragment, a failed sanitisation or
      an unparsable product). The steric product is built on the molecule
      without hydrogens, at an index of the molecule with hydrogens added. */
  function Attempt(tk: Toolkit, mol: Molecule, kind: Edit, i: nat): Option<Variant>
    requires i < |Substituents(kind)|
  {
    match Target(tk, mol, kind)
    case None => None
    case Some(t) =>
      match tk.parse(Substituents(kind)[i].1)
      case None => None
      case Some(sub) =>
        match tk.attach(mol, sub, t)
        case None => None
        case Some(product) =>
          match ComputeLigandProps(tk, product)
          case None => None
          case Some(props) => Some(MakeVariant(kind, i, props))
  }

  /** The outcome of every pass of a substituent loop, in loop order. */
  function Attempts(tk: Toolkit, mol: Molecule, kind: Edit): (r: seq<Option<Variant>>)
    ensures |r| == |Substituents(kind)|
    ensures forall i :: 0 <= i < |r| ==> r[i] == Attempt(tk, mol, kind, i)
  {
    seq(|Substituents(kind)|, i requires 0 <= i < |Substituents(kind)| => Attempt(tk, mol, kind, i))
  }

  /** What `generate_steric_variants` / `generate_electronic_variants` return. */
  function Variants(tk: Toolkit, smiles: string, kind: Edit): seq<Variant> {
    match tk.parse(smiles)
    case None => []
    case Some(mol) => Somes(Attempts(tk, mol, kind))
  }

  method GenerateStericVariants(tk: Toolkit, smiles: string) returns (variants: seq<Variant>)
    ensures variants == Variants(tk, smiles, Steric)
  {
    var parsed := tk.parse(smiles);
    if parsed.None? {
      return [];
    }
    var mol := parsed.value;
    var subs := Substituents(Steric);
    variants := [];
    for i := 0 to |subs|
      invariant variants == Somes(Attempts(tk, mol, Steric)[..i])
    {
      SomesSnoc(Attempts(tk, mol, Steric), i);
      var molH := tk.addHydrogens(mol);
      var aromaticCh := AromaticCH(molH);
      if aromaticCh != [] {
        var target := aromaticCh[0];
        SitesUpToSpec(molH, Steric, |molH.atoms|);
        assert target in aromaticCh;
        var h := FindNeighbor(molH, target, "H");
        // The scan always finds the hydrogen that put `target` in the list,
        // so the source's `else: continue` never runs.
        assert h.Some?;
        var sub := tk.parse(subs[i].1);
        if sub.Some? {
          var product := tk.attach(mol, sub.value, target);
          if product.Some? {
            var props := ComputeLigandProps(tk, product.value);
            if props.Some? {
              variants := variants + [MakeVariant(Steric, i, props.value)];
            }
          }
        }
      }
    }
    assert Attempts(tk, mol, Steric)[..|subs|] == Attempts(tk, mol, Steric);
  }

  method GenerateElectronicVariants(tk: Toolkit, smiles: string) returns (variants: seq<Variant>)
    ensures variants == Variants(tk, smiles, Electronic)
  {
    var parsed := tk.parse(smiles);
    if parsed.None? {
      return [];
    }
    var mol := parsed.value;
    var subs := Substituents(Electronic);
    variants := [];
    for i := 0 to |subs|
      invariant variants == Somes(Attempts(tk, mol, Electronic)[..i])
    {
      SomesSnoc(Attempts(tk, mol, Electronic), i);
      var sub := tk.parse(subs[i].1);
      if sub.None? {
        continue;
      }
      var carbons := Sites(mol, Electronic);
      if carbons == [] {
        continue;
      }
      var target := carbons[|carbons| - 1];
      var product := tk.attach(mol, sub.value, target);
      if product.Some? {
        var props := ComputeLigandProps(tk, product.value);
        if props.Some? {
          variants := variants + [MakeVariant(Electronic, i, props.value)];
        }
      }
    }
    assert Attempts(tk, mol, Electronic)[..|subs|] == Attempts(tk, mol, Electronic);
  }

  function Modifications(vs: seq<Variant>): seq<string> {
    if vs == [] then []
    else Modifications(vs[..|vs| - 1]) + [vs[|vs| - 1].Modification()]
  }

  /** The modification names of a loop's substituents, in loop order. */
  function AllModifications(kind: Edit): (r: seq<string>)
    ensures |r| == |Substituents(kind)|
    ensures forall i :: 0 <= i < |r| ==> r[i] == ModificationName(kind, Substituents(kind)[i].0)
  {
    seq(|Substituents(kind)|, i requires 0 <= i < |Substituents(kind)| => ModificationName(kind, Substituents(kind)[i].0))
  }

  lemma ModificationsSnoc(vs: seq<Variant>, v: Variant)
    ensures Modifications(vs + [v]) == Modifications(vs) + [v.Modification()]
  {
    assert (vs + [v])[..|vs|] == vs;
  }

  /** A successful attempt is the variant of that substituent. */
  lemma AttemptShape(tk: Toolkit, mol: Molecule, kind: Edit, i: nat)
    requires i < |Substituents(kind)|
    ensures Attempt(tk, mol, kind, i).Some? ==>
      var v := Attempt(tk, mol, kind, i).value;
      && v.Strategy() == StrategyName(kind) && v.Properties().Some?
      && v.Modification() == ModificationName(kind, Substituents(kind)[i].0)
  {
  }

  /** Keeping the successful passes keeps their names in pass order. */
  lemma {:induction false} SomesOrder(os: seq<Option<Variant>>, names: seq<string>)
    requires |os| == |names|
    requires forall i :: 0 <= i < |os| && os[i].Some? ==> os[i].value.Modification() == names[i]
    ensures IsSubsequence(Modifications(Somes(os)), names)
  {
    if os != [] {
      var n := |os| - 1;
      var init, prevNames := os[..n], names[..n];
      forall i | 0 <= i < n && init[i].Some? ensures init[i].value.Modification() == prevNames[i] {
        assert init[i] == os[i] && prevNames[i] == names[i];
      }
      SomesOrder(init, prevNames);
      var prev := Somes(init);
      SubsequenceSnoc(Modifications(prev), names);
      if os[n].Some? {
        assert Somes(os) == prev + [os[n].value];
        ModificationsSnoc(prev, os[n].value);
      } else {
        assert Somes(os) == prev;
      }
    }
  }

  /** Each generator yields at most three variants, all tagged with its
      strategy and carrying properties, in substituent order; a substituent's
      variant is present exactly when its attempt succeeds, so a failing
      substituent is skipped without stopping the rest. */
  lemma VariantsSpec(tk: Toolkit, smiles: string, kind: Edit)
    ensures |Variants(tk, smiles, kind)| <= 3
    ensures forall v :: v in Variants(tk, smiles, kind) ==>
      v.Strategy() == StrategyName(kind) && v.Properties().Some?
    ensures IsSubsequence(Modifications(Variants(tk, smiles, kind)), AllModifications(kind))
    ensures tk.parse(smiles).Some? ==>
      && (forall i :: 0 <= i < 3 && Attempt(tk, tk.parse(smiles).value, kind, i).Some? ==>
            Attempt(tk, tk.parse(smiles).value, kind, i).value in Variants(tk, smiles, kind))
      && (forall v :: v in Variants(tk, smiles, kind) ==>
            exists i :: 0 <= i < 3 && Attempt(tk, tk.parse(smiles).value, kind, i) == Some(v))
  {
    if tk.parse(smiles).Some? {
      var mol := tk.parse(smiles).value;
      var os := Attempts(tk, mol, kind);
      SomesMembers(os);
      forall i | 0 <= i < |os| && os[i].Some?
        ensures os[i].value.Modification() == AllModifications(kind)[i]
      {
        AttemptShape(tk, mol, kind, i);
      }
      SomesOrder(os, AllModifications(kind));
      forall v | v in Variants(tk, smiles, kind)
        ensures v.Strategy() == StrategyName(kind) && v.Properties().Some?
      {
        var i :| 0 <= i < 3 && os[i] == Some(v);
        AttemptShape(tk, mol, kind, i);
      }
    }
  }

  /** Without a site the generator produces nothing, and an unparsable input
      gives an empty list from all three generators. */
  lemma NoVariantsWithoutSite(tk: Toolkit, smiles: string, kind: Edit)
    ensures tk.parse(smiles).None? ==>
      Variants(tk, smiles, kind) == [] && BioisostericSuggestions(tk, smiles) == []
    ensures tk.parse(smiles).Some? && Target(tk, tk.parse(smiles).value, kind).None? ==>
      Variants(tk, smiles, kind) == []
  {
    if tk.parse(smiles).Some? && Target(tk, tk.parse(smiles).value, kind).None? {
      SomesNone(Attempts(tk, tk.parse(smiles).value, kind));
    }
  }

  // ---------------------------------------------------------------------
  // Bioisosteric suggestions

  /** The `modification` entry of each suggestion. */
  function SuggestionName(s: Suggestion): string {
    match s
    case NhcReplacement => "P→NHC replacement"
    case PhosphiteSwap => "Phosphine → phosphite (P(OR)3)"
    case PyridylSwap => "Phenyl → 2-pyridyl (hemilabile)"
    case MesitylSwap => "Phenyl → mesityl (steric + electronic)"
  }

  /** The remaining text of a suggestion; only the first cites literature. */
  datatype SuggestionText = SuggestionText(description: string, rationale: string, literature: Option<seq<string>>)

  function Text(s: Suggestion): SuggestionText {
    match s
    case NhcReplacement => SuggestionText(
      "Replace phosphine with N-heterocyclic carbene (NHC). NHCs are stronger σ-donors with no π-acceptor character, often giving more active and stable catalysts. Well-proven in Pd, Ru, Au catalysis.",
      "NHC ligands form stronger M-C bonds vs M-P, resist oxidation, and provide tunable steric environment via N-substituents.",
      Some(["Chem. Rev. 2009, 109, 3612 (Díez-González et al.)"]))
    case PhosphiteSwap => SuggestionText(
      "Replace PR3 with P(OR)3. Phosphites are stronger π-acceptors, making the metal more electrophilic. Useful when oxidative addition is easy but reductive elimination is slow.",
      "Lower σ-donor / higher π-acceptor shifts the electronic balance. Good for electron-rich substrates.",
      None)
    case PyridylSwap => SuggestionText(
      "Replace one phenyl ring with 2-pyridyl to create a hemilabile coordination site. The pyridyl N can coordinate/dissociate dynamically, creating an open site for substrate binding.",
      "Hemilabile ligands improve catalyst longevity and substrate turnover in challenging reactions.",
      None)
    case MesitylSwap => SuggestionText(
      "Replace phenyl with 2,4,6-trimethylphenyl (mesityl). Adds steric protection around the metal center while maintaining aromaticity.",
      "Mesityl groups prevent catalyst deactivation through dimerization and provide moderate electron donation.",
      None)
  }

  const PHOSPHORUS_PAIR := [Suggested(NhcReplacement), Suggested(PhosphiteSwap)]
  const AROMATIC_PAIR := [Suggested(PyridylSwap), Suggested(MesitylSwap)]

  /** `generate_bioisosteric_suggestions`. */
  function BioisostericSuggestions(tk: Toolkit, smiles: string): seq<Variant> {
    match tk.parse(smiles)
    case None => []
    case Some(mol) =>
      (if HasSymbol(mol, "P") then PHOSPHORUS_PAIR else []) +
      (if HasAromatic(mol) then AROMATIC_PAIR else [])
  }

  /** Two suggestions for a phosphorus atom, then two for an aromatic atom,
      every one tagged "bioisosteric" with no properties. */
  lemma BioisostericSpec(tk: Toolkit, smiles: string)
    requires tk.parse(smiles).Some?
    ensures var mol := tk.parse(smiles).value;
      var r := BioisostericSuggestions(tk, smiles);
      && |r| == (if HasSymbol(mol, "P") then 2 else 0) + (if HasAromatic(mol) then 2 else 0)
      && (HasSymbol(mol, "P") ==> r[..2] == PHOSPHORUS_PAIR)
      && (HasAromatic(mol) ==> r[|r| - 2..] == AROMATIC_PAIR)
      && (forall v :: v in r ==> v.Strategy() == "bioisosteric" && v.Properties().None?)
  {
  }

  // ---------------------------------------------------------------------
  // design_ligands

  const DESIGN_NEXT: seq<string> := ["catalyst_recommend", "chemistry-query", "ip-expansion"]

  /** The dictionary `design_ligands` returns, without its constant `agent`,
      `version` and `action` entries and without the drawing paths. */
  datatype DesignReport =
    | DesignFailed(error: string)
    | Designed(input: string, smiles: string, properties: LigandProps,
               variants: seq<Variant>, totalVariants: nat, recommendNext: seq<string>)

  function Status(d: DesignReport): string {
    if d.DesignFailed? then "error" else "success"
  }

  /** `report.get("variants")`, empty where the key is absent. */
  function DesignVariants(d: DesignReport): seq<Variant> {
    if d.Designed? then d.variants else []
  }

  /** `strategy in (name, "all")`; a None strategy selects nothing. */
  predicate Includes(strategy: Option<string>, name: string) {
    strategy == Some(name) || strategy == Some("all")
  }

  /** The entries the strategy selects: each generator's list when the
      strategy names it or is "all", in the order steric, electronic,
      bioisosteric. */
  function Selected(tk: Toolkit, smiles: string, strategy: Option<string>): seq<Variant> {
    (if Includes(strategy, "steric") then Variants(tk, smiles, Steric) else []) +
    (if Includes(strategy, "electronic") then Variants(tk, smiles, Electronic) else []) +
    (if Includes(strategy, "bioisosteric") then BioisostericSuggestions(tk, smiles) else [])
  }

  function DesignSpec(tk: Toolkit, scaffold: string, strategy: Option<string>): DesignReport {
    var smiles := ResolveScaffold(scaffold);
    match ComputeLigandProps(tk, smiles)
    case None => DesignFailed("Could not parse scaffold SMILES: " + smiles)
    case Some(base) =>
      var variants := Selected(tk, smiles, strategy);
      Designed(scaffold, smiles, base, variants, |variants|, DESIGN_NEXT)
  }

  method DesignLigands(tk: Toolkit, scaffold: string, strategy: Option<string>) returns (report: DesignReport)
    ensures report == DesignSpec(tk, scaffold, strategy)
  {
    var smiles := ResolveScaffold(scaffold);
    var base := ComputeLigandProps(tk, smiles);
    if base.None? {
      return DesignFailed("Could not parse scaffold SMILES: " + smiles);
    }
    var variants: seq<Variant> := [];
    if strategy == Some("steric") || strategy == Some("all") {
      var steric := GenerateStericVariants(tk, smiles);
      variants := variants + steric;
    }
    ghost var part1 := if Includes(strategy, "steric") then Variants(tk, smiles, Steric) else [];
    assert variants == part1;
    if strategy == Some("electronic") || strategy == Some("all") {
      var electronic := GenerateElectronicVariants(tk, smiles);
      variants := variants + electronic;
    }
    ghost var part2 := if Includes(strategy, "electronic") then Variants(tk, smiles, Electronic) else [];
    assert variants == part1 + part2;
    if strategy == Some("bioisosteric") || strategy == Some("all") {
      variants := variants + BioisostericSuggestions(tk, smiles);
    }
    ghost var part3 := if Includes(strategy, "bioisosteric") then BioisostericSuggestions(tk, smiles) else [];
    assert variants == part1 + part2 + part3;
    assert variants == Selected(tk, smiles, strategy);
    report := Designed(scaffold, smiles, base.value, variants, |variants|, DESIGN_NEXT);
  }

  /** The entries of `vs` tagged with strategy `s`, in order. */
  function WithStrategy(vs: seq<Variant>, s: string): seq<Variant> {
    if vs == [] then []
    else WithStrategy(vs[..|vs| - 1], s) + (if vs[|vs| - 1].Strategy() == s then [vs[|vs| - 1]] else [])
  }

  lemma {:induction false} WithStrategyAppend(a: seq<Variant>, b: seq<Variant>, s: string)
    ensures WithStrategy(a + b, s) == WithStrategy(a, s) + WithStrategy(b, s)
  {
    if b == [] {
      assert a + b == a;
    } else {
      assert (a + b)[..|a + b| - 1] == a + b[..|b| - 1];
      WithStrategyAppend(a, b[..|b| - 1], s);
    }
  }

  lemma {:induction false} WithStrategyAll(vs: seq<Variant>, s: string)
    requires forall v :: v in vs ==> v.Strategy() == s
    ensures WithStrategy(vs, s) == vs
  {
    if vs != [] {
      var init, last := vs[..|vs| - 1], vs[|vs| - 1];
      assert vs == init + [last];
      assert last in vs;
      forall v | v in init ensures v.Strategy() == s {
        assert v in vs;
      }
      WithStrategyAll(init, s);
    }
  }

  lemma {:induction false} WithStrategyNone(vs: seq<Variant>, s: string)
    requires forall v :: v in vs ==> v.Strategy() != s
    ensures WithStrategy(vs, s) == []
  {
    if vs != [] {
      var init, last := vs[..|vs| - 1], vs[|vs| - 1];
      assert vs == init + [last];
      assert last in vs;
      forall v | v in init ensures v.Strategy() != s {
        assert v in vs;
      }
      WithStrategyNone(init, s);
    }
  }

  /** The strategy tag of the entries a generator contributes, so that the
      entries of one tag are that generator's list. */
  lemma PartTags(tk: Toolkit, smiles: string)
    ensures forall v :: v in Variants(tk, smiles, Steric) ==> v.Strategy() == "steric"
    ensures forall v :: v in Variants(tk, smiles, Electronic) ==> v.Strategy() == "electronic"
    ensures forall v :: v in BioisostericSuggestions(tk, smiles) ==> v.Strategy() == "bioisosteric"
  {
    VariantsSpec(tk, smiles, Steric);
    VariantsSpec(tk, smiles, Electronic);
  }

  /** An unparsable scaffold gives the error report naming the resolved
      SMILES, and no variants. */
  lemma DesignFailsIffUnparsable(tk: Toolkit, scaffold: string, strategy: Option<string>)
    ensures DesignSpec(tk, scaffold, strategy).DesignFailed? <==> tk.parse(ResolveScaffold(scaffold)).None?
    ensures Status(DesignSpec(tk, scaffold, strategy)) == "error" ==>
      DesignSpec(tk, scaffold, strategy).error == "Could not parse scaffold SMILES: " + ResolveScaffold(scaffold)
      && DesignVariants(DesignSpec(tk, scaffold, strategy)) == []
  {
  }

  /** Each part is tagged with a single strategy, so filtering the
      concatenation by a tag keeps the parts with that tag. */
  lemma WithStrategyOfThree(st: seq<Variant>, el: seq<Variant>, bi: seq<Variant>, s: string)
    requires forall v :: v in st ==> v.Strategy() == "steric"
    requires forall v :: v in el ==> v.Strategy() == "electronic"
    requires forall v :: v in bi ==> v.Strategy() == "bioisosteric"
    ensures WithStrategy(st + el + bi, s) ==
      (if s == "steric" then st else []) + (if s == "electronic" then el else []) +
      (if s == "bioisosteric" then bi else [])
  {
    WithStrategyAppend(st + el, bi, s);
    WithStrategyAppend(st, el, s);
    WithTag(st, "steric", s);
    WithTag(el, "electronic", s);
    WithTag(bi, "bioisosteric", s);
  }

  lemma WithTag(vs: seq<Variant>, tag: string, s: string)
    requires forall v :: v in vs ==> v.Strategy() == tag
    ensures WithStrategy(vs, s) == if s == tag then vs else []
  {
    if s == tag {
      WithStrategyAll(vs, s);
    } else {
      WithStrategyNone(vs, s);
    }
  }

  lemma SplitByStrategy(st: seq<Variant>, el: seq<Variant>, bi: seq<Variant>)
    requires forall v :: v in st ==> v.Strategy() == "steric"
    requires forall v :: v in el ==> v.Strategy() == "electronic"
    requires forall v :: v in bi ==> v.Strategy() == "bioisosteric"
    ensures WithStrategy(st + el + bi, "steric") == st
    ensures WithStrategy(st + el + bi, "electronic") == el
    ensures WithStrategy(st + el + bi, "bioisosteric") == bi
  {
    WithStrategyOfThree(st, el, bi, "steric");
    WithStrategyOfThree(st, el, bi, "electronic");
    WithStrategyOfThree(st, el, bi, "bioisosteric");
  }

  /** A successful report lists the steric, then the electronic, then the
      bioisosteric entries, each group present only when the strategy names
      it or is "all"; any other strategy, None included, gives no variants;
      the total is the list's length. */
  lemma DesignDispatch(tk: Toolkit, scaffold: string, strategy: Option<string>)
    requires DesignSpec(tk, scaffold, strategy).Designed?
    ensures var d := DesignSpec(tk, scaffold, strategy);
      && d.totalVariants == |d.variants|
      && d.smiles == ResolveScaffold(scaffold)
      && WithStrategy(d.variants, "steric") ==
         (if Includes(strategy, "steric") then Variants(tk, d.smiles, Steric) else [])
      && WithStrategy(d.variants, "electronic") ==
         (if Includes(strategy, "electronic") then Variants(tk, d.smiles, Electronic) else [])
      && WithStrategy(d.variants, "bioisosteric") ==
         (if Includes(strategy, "bioisosteric") then BioisostericSuggestions(tk, d.smiles) else [])
      && (strategy !in [Some("steric"), Some("electronic"), Some("bioisosteric"), Some("all")] ==> d.variants == [])
      && d.variants == WithStrategy(d.variants, "steric") + WithStrategy(d.variants, "electronic") +
         WithStrategy(d.variants, "bioisosteric")
  {
    var smiles := ResolveScaffold(scaffold);
    PartTags(tk, smiles);
    SplitByStrategy(
      if Includes(strategy, "steric") then Variants(tk, smiles, Steric) else [],
      if Includes(strategy, "electronic") then Variants(tk, smiles, Electronic) else [],
      if Includes(strategy, "bioisosteric") then BioisostericSuggestions(tk, smiles) else []);
  }
}
