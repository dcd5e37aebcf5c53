/**
 * The fingerprint extractor: `get_rxnfp` and `get_conditionfp`.
 *
 * The Morgan fingerprint itself (RDKit's `MolFromSmiles` followed by
 * `GetMorganFingerprintAsBitVect` with radius 2, 512 bits and chirality)
 * is a foreign library; it is an `Oracle` here: a SMILES string either
 * yields a 512-long 0/1 vector or fails (the parse returned no molecule,
 * or the value was not a string at all).
 */
module Fingerprints {
  import opened Results

  /** Number of bits of every fingerprint (`nBits = 512`). */
  const FpBits: nat := 512

  predicate IsBitVector(v: seq<int>) {
    |v| == FpBits && forall j :: 0 <= j < |v| ==> v[j] == 0 || v[j] == 1
  }

  /** The all-zero fingerprint, `[0]*512`. */
  function Zeros(): (z: seq<int>)
    ensures IsBitVector(z)
    ensures forall j :: 0 <= j < |z| ==> z[j] == 0
  {
    seq(FpBits, _ => 0)
  }

  /** A fingerprint of one molecule. */
  type Fp = v: seq<int> | IsBitVector(v) witness Zeros()

  /** A reaction-difference vector: 512 entries, each product bit minus reactant bit. */
  type FpDiff = d: seq<int> | |d| == FpBits witness Zeros()

  /** RDKit's fingerprinting of a SMILES string; `None` when it raises. */
  type Oracle = string -> Option<Fp>

  /** The triple `get_rxnfp` returns on success. */
  datatype RxnFp = RxnFp(reactant: Fp, product: Fp, diff: FpDiff)

  /** Element-wise `p - r`, numpy's `pfpgen - rfpgen`. */
  function Minus(p: Fp, r: Fp): (d: FpDiff)
    ensures forall j :: 0 <= j < FpBits ==> d[j] == p[j] - r[j]
  {
    seq(FpBits, j requires 0 <= j < FpBits => p[j] - r[j])
  }

  /** Element-wise sum, the inverse of `Minus`. */
  function Plus(r: seq<int>, d: seq<int>): (s: seq<int>)
    requires |r| == |d|
    ensures |s| == |r|
  {
    seq(|r|, j requires 0 <= j < |r| => r[j] + d[j])
  }

  /**
   * `get_rxnfp`: both molecules must fingerprint, otherwise the result is
   * the "none" triple `(None, None, None)`.
   */
  function GetRxnFp(fp: Oracle, reactant: string, product: string): (r: Option<RxnFp>)
    ensures r.Some? <==> fp(reactant).Some? && fp(product).Some?
    ensures r.Some? ==> r.value.reactant == fp(reactant).value && r.value.product == fp(product).value
    ensures r.Some? ==> forall j :: 0 <= j < FpBits ==>
                          r.value.diff[j] == r.value.product[j] - r.value.reactant[j]
  {
    match (fp(reactant), fp(product))
    case (Some(rf), Some(pf)) => Some(RxnFp(rf, pf, Minus(pf, rf)))
    case _ => None
  }

  /**
   * The difference vector loses nothing: reactant + diff gives the product
   * back, and every entry of the difference is -1, 0 or 1.
   */
  lemma DiffRecoversProduct(fp: Oracle, reactant: string, product: string)
    requires GetRxnFp(fp, reactant, product).Some?
    ensures var x := GetRxnFp(fp, reactant, product).value;
      Plus(x.reactant, x.diff) == x.product &&
      forall j :: 0 <= j < FpBits ==> -1 <= x.diff[j] <= 1
  {
  }

  /**
   * `get_conditionfp` never fails: the molecule's fingerprint, or 512
   * zeros when fingerprinting raises.
   */
  function GetConditionFp(fp: Oracle, condition: string): (r: Fp)
    ensures fp(condition).Some? ==> r == fp(condition).value
    ensures fp(condition).None? ==> forall j :: 0 <= j < |r| ==> r[j] == 0
  {
    match fp(condition)
    case Some(v) => v
    case None => Zeros()
  }

  /**
   * The two failure policies differ: a molecule that cannot be fingerprinted
   * sinks any reaction it appears in, but as a condition it reads as zeros.
   */
  lemma FailurePoliciesDiffer(fp: Oracle, smiles: string, other: string)
    requires fp(smiles).None?
    ensures GetRxnFp(fp, smiles, other).None? && GetRxnFp(fp, other, smiles).None?
    ensures GetConditionFp(fp, smiles) == Zeros()
  {
  }
}
