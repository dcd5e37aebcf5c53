/**
 * The input recipe of `get_train_data` and the layout of an assembled
 * input vector.
 *
 * The recipe is a string (for example "rxnfp+cat+solv"); the source asks
 * `'cat' in inputs`, which on a Python string is substring containment,
 * so the recipe is kept as a string and read through `Contains`.
 */
module Layout {
  import opened Fingerprints

  /** Python's `pat in s` for two strings. */
  function Contains(s: string, pat: string): bool
    decreases |s|
  {
    if |s| < |pat| then false else s[..|pat|] == pat || Contains(s[1..], pat)
  }

  ghost predicate OccursAt(s: string, pat: string, i: int) {
    0 <= i && i + |pat| <= |s| && s[i..i + |pat|] == pat
  }

  /** An occurrence in the tail is an occurrence one further on in the whole string. */
  lemma OccursShift(s: string, pat: string, i: int)
    requires s != [] && 0 <= i
    ensures OccursAt(s[1..], pat, i) <==> OccursAt(s, pat, i + 1)
  {
    if i + |pat| <= |s| - 1 {
      assert s[1..][i..i + |pat|] == s[i + 1..i + 1 + |pat|];
    }
  }

  /** `Contains` is exactly "occurs at some offset". */
  lemma {:induction false} ContainsIffOccurs(s: string, pat: string)
    ensures Contains(s, pat) <==> exists i :: OccursAt(s, pat, i)
    decreases |s|
  {
    if |s| < |pat| {
      forall i | OccursAt(s, pat, i) ensures false { }
    } else if s[..|pat|] == pat {
      assert OccursAt(s, pat, 0);
    } else {
      ContainsIffOccurs(s[1..], pat);
      if Contains(s[1..], pat) {
        var i :| OccursAt(s[1..], pat, i);
        OccursShift(s, pat, i);
      } else {
        forall i | OccursAt(s, pat, i) ensures false {
          if i != 0 {
            OccursShift(s, pat, i - 1);
          }
        }
      }
    }
  }

  /** Which optional components the recipe string selects. */
  datatype Recipe = Recipe(rxnfp: bool, cat: bool, solv: bool, reag0: bool, reag1: bool)

  function ParseRecipe(inputs: string): (rc: Recipe)
    ensures rc.rxnfp <==> exists i :: OccursAt(inputs, "rxnfp", i)
    ensures rc.cat <==> exists i :: OccursAt(inputs, "cat", i)
    ensures rc.solv <==> exists i :: OccursAt(inputs, "solv", i)
    ensures rc.reag0 <==> exists i :: OccursAt(inputs, "reag0", i)
    ensures rc.reag1 <==> exists i :: OccursAt(inputs, "reag1", i)
  {
    ContainsIffOccurs(inputs, "rxnfp");
    ContainsIffOccurs(inputs, "cat");
    ContainsIffOccurs(inputs, "solv");
    ContainsIffOccurs(inputs, "reag0");
    ContainsIffOccurs(inputs, "reag1");
    Recipe(Contains(inputs, "rxnfp"), Contains(inputs, "cat"), Contains(inputs, "solv"),
           Contains(inputs, "reag0"), Contains(inputs, "reag1"))
  }

  function Bit(b: bool): nat { if b then 1 else 0 }

  /** Number of optional components selected. */
  function Optional(rc: Recipe): nat {
    Bit(rc.rxnfp) + Bit(rc.cat) + Bit(rc.solv) + Bit(rc.reag0) + Bit(rc.reag1)
  }

  /** Length of an assembled input: reactant and product plus 512 per optional component. */
  function Width(rc: Recipe): nat {
    2 * FpBits + FpBits * Optional(rc)
  }

  /** The fingerprints of one record that an input can be built from. */
  datatype RecordFps = RecordFps(rxn: RxnFp, cat: Fp, solv: Fp, reag0: Fp, reag1: Fp)

  /** The components of an input, in the order the source concatenates them. */
  datatype Component = Reactant | Product | Diff | Cat | Solv | Reag0 | Reag1

  predicate Selected(rc: Recipe, c: Component) {
    match c
    case Reactant => true
    case Product => true
    case Diff => rc.rxnfp
    case Cat => rc.cat
    case Solv => rc.solv
    case Reag0 => rc.reag0
    case Reag1 => rc.reag1
  }

  function Part(f: RecordFps, c: Component): seq<int> {
    match c
    case Reactant => f.rxn.reactant
    case Product => f.rxn.product
    case Diff => f.rxn.diff
    case Cat => f.cat
    case Solv => f.solv
    case Reag0 => f.reag0
    case Reag1 => f.reag1
  }

  /**
   * The slot a selected component occupies: the number of selected
   * components that come before it in the fixed order. It depends on the
   * recipe's flags only, never on the order the recipe string names them.
   */
  function Slot(rc: Recipe, c: Component): nat {
    match c
    case Reactant => 0
    case Product => 1
    case Diff => 2
    case Cat => 2 + Bit(rc.rxnfp)
    case Solv => 2 + Bit(rc.rxnfp) + Bit(rc.cat)
    case Reag0 => 2 + Bit(rc.rxnfp) + Bit(rc.cat) + Bit(rc.solv)
    case Reag1 => 2 + Bit(rc.rxnfp) + Bit(rc.cat) + Bit(rc.solv) + Bit(rc.reag0)
  }

  /** `bs` with `x` appended when `b` holds. */
  function AppendIf(bs: seq<seq<int>>, b: bool, x: seq<int>): seq<seq<int>> {
    if b then bs + [x] else bs
  }

  /** The blocks of an input: reactant, product, then diff, cat, solv, reag0, reag1 when selected. */
  function Blocks(rc: Recipe, f: RecordFps): (bs: seq<seq<int>>)
    ensures |bs| == 2 + Optional(rc)
    ensures forall k :: 0 <= k < |bs| ==> |bs[k]| == FpBits
  {
    var b1 := AppendIf([f.rxn.reactant, f.rxn.product], rc.rxnfp, f.rxn.diff);
    var b2 := AppendIf(b1, rc.cat, f.cat);
    var b3 := AppendIf(b2, rc.solv, f.solv);
    var b4 := AppendIf(b3, rc.reag0, f.reag0);
    AppendIf(b4, rc.reag1, f.reag1)
  }

  /** Every selected component sits at its slot among the blocks. */
  lemma BlockAtSlot(rc: Recipe, f: RecordFps, c: Component)
    requires Selected(rc, c)
    ensures Slot(rc, c) < |Blocks(rc, f)| && Blocks(rc, f)[Slot(rc, c)] == Part(f, c)
  {
  }

  /** Concatenation of blocks, `np.concatenate` applied left to right. */
  function Flatten(bs: seq<seq<int>>): seq<int> {
    if bs == [] then [] else Flatten(bs[..|bs| - 1]) + bs[|bs| - 1]
  }

  lemma FlattenSnoc(bs: seq<seq<int>>, b: seq<int>)
    ensures Flatten(bs + [b]) == Flatten(bs) + b
  {
  }

  lemma FlattenAppendIf(bs: seq<seq<int>>, b: bool, x: seq<int>)
    ensures Flatten(AppendIf(bs, b, x)) == Flatten(bs) + (if b then x else [])
  {
  }

  lemma {:induction false} FlattenLength(bs: seq<seq<int>>)
    requires forall k :: 0 <= k < |bs| ==> |bs[k]| == FpBits
    ensures |Flatten(bs)| == FpBits * |bs|
  {
    if bs != [] {
      FlattenLength(bs[..|bs| - 1]);
    }
  }

  /** Block `k` of a concatenation sits at offset 512 * k. */
  lemma {:induction false} FlattenBlock(bs: seq<seq<int>>, k: nat)
    requires forall i :: 0 <= i < |bs| ==> |bs[i]| == FpBits
    requires k < |bs|
    ensures |Flatten(bs)| == FpBits * |bs|
    ensures Flatten(bs)[FpBits * k..FpBits * (k + 1)] == bs[k]
  {
    var init := bs[..|bs| - 1];
    FlattenLength(bs);
    FlattenLength(init);
    assert Flatten(bs) == Flatten(init) + bs[|bs| - 1];
    if k < |bs| - 1 {
      FlattenBlock(init, k);
      assert Flatten(bs)[FpBits * k..FpBits * (k + 1)] == Flatten(init)[FpBits * k..FpBits * (k + 1)];
    } else {
      assert Flatten(bs)[FpBits * k..FpBits * (k + 1)] == Flatten(bs)[|Flatten(init)|..];
    }
  }

  /** The input vector `get_train_data` stores for a record. */
  function Input(rc: Recipe, f: RecordFps): seq<int> {
    Flatten(Blocks(rc, f))
  }

  /**
   * Layout of an assembled input: its length is `Width`, and every selected
   * component occupies the 512 entries of its slot in the fixed order.
   */
  lemma InputLayout(rc: Recipe, f: RecordFps, c: Component)
    requires Selected(rc, c)
    ensures |Input(rc, f)| == Width(rc)
    ensures Input(rc, f)[FpBits * Slot(rc, c)..FpBits * (Slot(rc, c) + 1)] == Part(f, c)
  {
    BlockAtSlot(rc, f, c);
    FlattenBlock(Blocks(rc, f), Slot(rc, c));
  }

  /** Components the recipe leaves out do not affect the input. */
  lemma SelectedPartsDecide(rc: Recipe, f: RecordFps, g: RecordFps)
    requires f.rxn == g.rxn
    requires (rc.cat ==> f.cat == g.cat) && (rc.solv ==> f.solv == g.solv)
    requires (rc.reag0 ==> f.reag0 == g.reag0) && (rc.reag1 ==> f.reag1 == g.reag1)
    ensures Input(rc, f) == Input(rc, g)
  {
  }

  /**
   * The concatenation of `get_train_data`: reactant and product, then each
   * selected optional component, appended in the fixed order.
   */
  method ConcatInput(rc: Recipe, f: RecordFps) returns (input: seq<int>)
    ensures input == Input(rc, f)
  {
    ghost var blocks: seq<seq<int>> := [f.rxn.reactant, f.rxn.product];
    input := f.rxn.reactant + f.rxn.product;
    assert input == Flatten(blocks) by {
      FlattenSnoc([], f.rxn.reactant);
      FlattenSnoc([f.rxn.reactant], f.rxn.product);
    }
    FlattenAppendIf(blocks, rc.rxnfp, f.rxn.diff);
    blocks := AppendIf(blocks, rc.rxnfp, f.rxn.diff);
    if rc.rxnfp {
      input := input + f.rxn.diff;
    }
    FlattenAppendIf(blocks, rc.cat, f.cat);
    blocks := AppendIf(blocks, rc.cat, f.cat);
    if rc.cat {
      input := input + f.cat;
    }
    FlattenAppendIf(blocks, rc.solv, f.solv);
    blocks := AppendIf(blocks, rc.solv, f.solv);
    if rc.solv {
      input := input + f.solv;
    }
    FlattenAppendIf(blocks, rc.reag0, f.reag0);
    blocks := AppendIf(blocks, rc.reag0, f.reag0);
    if rc.reag0 {
      input := input + f.reag0;
    }
    FlattenAppendIf(blocks, rc.reag1, f.reag1);
    blocks := AppendIf(blocks, rc.reag1, f.reag1);
    if rc.reag1 {
      input := input + f.reag1;
    }
  }

  /** Two recipe strings naming the same components, in any order, give the same inputs. */
  lemma RecipeOrderIrrelevant(s1: string, s2: string, f: RecordFps)
    requires forall pat :: pat in ["rxnfp", "cat", "solv", "reag0", "reag1"] ==>
               Contains(s1, pat) == Contains(s2, pat)
    ensures Input(ParseRecipe(s1), f) == Input(ParseRecipe(s2), f)
  {
  }
}
