/**
 * The feature assembler: the body of `get_train_data`.
 *
 * Reading the CSV table and the vocabulary files is I/O; the records and
 * the header row of each reference file (for the chosen
 * with/without-nitrogen variant) are inputs, and `target_list` is the
 * header's distinct names in order of first occurrence. The parallel
 * fingerprint maps become order-preserving sequence comprehensions.
 */
module Assembly {
  import opened Results
  import opened Fingerprints
  import Layout

  /** The recognised targets; each is also a condition column of a record. */
  datatype Target = Cat | Solv | Reag0 | Reag1 | Reag2 | Reag3

  function TargetName(t: Target): string {
    match t
    case Cat => "cat"
    case Solv => "solv"
    case Reag0 => "reag0"
    case Reag1 => "reag1"
    case Reag2 => "reag2"
    case Reag3 => "reag3"
  }

  /** The target test of `get_train_data`; `None` is its `KeyError`. */
  function ParseTarget(s: string): (r: Option<Target>)
    ensures r.Some? ==> TargetName(r.value) == s
    ensures r.None? ==> forall t :: TargetName(t) != s
  {
    if s == "cat" then Some(Cat)
    else if s == "solv" then Some(Solv)
    else if s == "reag0" then Some(Reag0)
    else if s == "reag1" then Some(Reag1)
    else if s == "reag2" then Some(Reag2)
    else if s == "reag3" then Some(Reag3)
    else None
  }

  lemma ParseTargetRoundTrip(t: Target)
    ensures ParseTarget(TargetName(t)) == Some(t)
  {
  }

  /** One row of the source table. */
  datatype Record = Record(
    reactants: string, products: string,
    cat: string, solv: string, reag0: string, reag1: string, reag2: string, reag3: string,
    template: int)

  /** `data[target][i]`: the label of a record is its value in the target's column. */
  function Column(rec: Record, t: Target): string {
    match t
    case Cat => rec.cat
    case Solv => rec.solv
    case Reag0 => rec.reag0
    case Reag1 => rec.reag1
    case Reag2 => rec.reag2
    case Reag3 => rec.reag3
  }

  /**
   * The header rows of the three reference files `all_cat_*`, `all_solv_*`,
   * `all_reag_*`, as the column names they list (duplicates included).
   */
  datatype Vocabularies = Vocabularies(cat: seq<string>, solv: seq<string>, reag: seq<string>)

  /**
   * `list(row.keys())` of a `csv.DictReader` row: the header's names, each
   * once, in the order of their first occurrence.
   */
  function DistinctKeys(header: seq<string>): (keys: seq<string>)
    ensures |keys| <= |header|
    ensures forall x :: x in keys <==> x in header
    ensures forall i, j :: 0 <= i < j < |keys| ==> keys[i] != keys[j]
  {
    if header == [] then []
    else
      var ks := DistinctKeys(header[..|header| - 1]);
      var x := header[|header| - 1];
      if x in ks then ks else ks + [x]
  }

  /** The vocabulary is `target_list`; the four reagent slots share one file. */
  function VocabularyFor(vs: Vocabularies, t: Target): (v: seq<string>)
    ensures t == Cat ==> v == DistinctKeys(vs.cat)
    ensures t == Solv ==> v == DistinctKeys(vs.solv)
    ensures t != Cat && t != Solv ==> v == DistinctKeys(vs.reag)
  {
    match t
    case Cat => DistinctKeys(vs.cat)
    case Solv => DistinctKeys(vs.solv)
    case _ => DistinctKeys(vs.reag)
  }

  /** `list.index`: the first position holding `x`. */
  function IndexOf(vocab: seq<string>, x: string): (i: nat)
    requires x in vocab
    ensures i < |vocab| && vocab[i] == x
    ensures forall j :: 0 <= j < i ==> vocab[j] != x
  {
    if vocab[0] == x then 0 else 1 + IndexOf(vocab[1..], x)
  }

  /** The first occurrence of `x` in a sequence is its first occurrence in any prefix holding it. */
  lemma IndexOfPrefix(xs: seq<string>, n: nat, x: string)
    requires n <= |xs| && x in xs[..n]
    ensures IndexOf(xs, x) == IndexOf(xs[..n], x)
  {
    var i, k := IndexOf(xs, x), IndexOf(xs[..n], x);
    assert xs[k] == x;
    assert i <= k;
    assert xs[..n][i] == x;
  }

  /** Every key first occurs in `header` before the keys after it. */
  ghost predicate FirstOccurrenceOrder(header: seq<string>, keys: seq<string>)
    requires forall k :: 0 <= k < |keys| ==> keys[k] in header
  {
    forall i, j :: 0 <= i < j < |keys| ==> IndexOf(header, keys[i]) < IndexOf(header, keys[j])
  }

  /** Extending the header by one name keeps the order, and a new name goes last. */
  lemma FirstOccurrenceOrderStep(header: seq<string>, ks: seq<string>)
    requires header != [] && ks == DistinctKeys(header[..|header| - 1])
    requires FirstOccurrenceOrder(header[..|header| - 1], ks)
    ensures header[|header| - 1] !in ks ==> FirstOccurrenceOrder(header, ks + [header[|header| - 1]])
    ensures FirstOccurrenceOrder(header, ks)
  {
    var n := |header| - 1;
    var init, x := header[..n], header[n];
    forall k | 0 <= k < |ks|
      ensures ks[k] in header && IndexOf(header, ks[k]) == IndexOf(init, ks[k]) < n
    {
      assert header[IndexOf(init, ks[k])] == ks[k];
      IndexOfPrefix(header, n, ks[k]);
    }
    if x !in ks {
      var keys := ks + [x];
      assert x !in init;
      forall i, j | 0 <= i < j < |keys| ensures IndexOf(header, keys[i]) < IndexOf(header, keys[j]) {
        assert keys[i] == ks[i];
        if j < |ks| {
          assert keys[j] == ks[j];
        } else {
          assert keys[j] == x;
        }
      }
    }
  }

  /**
   * The distinct keys keep the order of first occurrence: an earlier key
   * first occurs earlier in the header.
   */
  lemma {:induction false} DistinctKeysOrder(header: seq<string>)
    ensures FirstOccurrenceOrder(header, DistinctKeys(header))
  {
    if header != [] {
      var init := header[..|header| - 1];
      DistinctKeysOrder(init);
      FirstOccurrenceOrderStep(header, DistinctKeys(init));
    }
  }

  /** Everything one assembly run is parameterised by. */
  datatype Setup = Setup(fp: Oracle, target: Target, vocab: seq<string>, recipe: Layout.Recipe)

  /** One entry of `t_data`: `input`, `tem` and the label index. */
  datatype Example = Example(input: seq<int>, tem: int, labelIndex: nat)

  /** What `get_train_data` returns: the examples, `len(target_list)`, `max_tem + 1`. */
  datatype TrainData = TrainData(examples: seq<Example>, numClasses: nat, templateSpace: int)

  datatype AssemblyError =
    | UnknownTarget   // the `KeyError` raised for a target outside the six names
    | NoExamples      // `t_data['input']` on an empty frame raises `KeyError`

  /** A record enters the dataset when its label is known and its reaction fingerprints exist. */
  predicate Keeps(s: Setup, rec: Record)
    ensures Keeps(s, rec) <==>
              Column(rec, s.target) in s.vocab && s.fp(rec.reactants).Some? && s.fp(rec.products).Some?
  {
    Column(rec, s.target) in s.vocab && GetRxnFp(s.fp, rec.reactants, rec.products).Some?
  }

  function FpsOf(s: Setup, rec: Record): Layout.RecordFps
    requires GetRxnFp(s.fp, rec.reactants, rec.products).Some?
  {
    Layout.RecordFps(GetRxnFp(s.fp, rec.reactants, rec.products).value,
              GetConditionFp(s.fp, rec.cat), GetConditionFp(s.fp, rec.solv),
              GetConditionFp(s.fp, rec.reag0), GetConditionFp(s.fp, rec.reag1))
  }

  /** The example a kept record becomes. */
  function ExampleOf(s: Setup, rec: Record): (e: Example)
    requires Keeps(s, rec)
    ensures e.labelIndex < |s.vocab| && s.vocab[e.labelIndex] == Column(rec, s.target)
    ensures e.tem == rec.template
    ensures |e.input| == Layout.Width(s.recipe)
  {
    Layout.FlattenLength(Layout.Blocks(s.recipe, FpsOf(s, rec)));
    Example(Layout.Input(s.recipe, FpsOf(s, rec)), rec.template, IndexOf(s.vocab, Column(rec, s.target)))
  }

  /** The dataset: the kept records' examples, in table order. */
  function Assembled(s: Setup, rs: seq<Record>): seq<Example> {
    if rs == [] then []
    else Assembled(s, rs[..|rs| - 1])
         + (if Keeps(s, rs[|rs| - 1]) then [ExampleOf(s, rs[|rs| - 1])] else [])
  }

  /** Positions of the kept records, in increasing order. */
  function KeptIndices(s: Setup, rs: seq<Record>): seq<nat> {
    if rs == [] then []
    else KeptIndices(s, rs[..|rs| - 1]) + (if Keeps(s, rs[|rs| - 1]) then [|rs| - 1] else [])
  }

  /**
   * The kept positions are strictly increasing, in range, and are exactly
   * the records that pass both tests.
   */
  lemma {:induction false} KeptIndicesExact(s: Setup, rs: seq<Record>)
    ensures forall k :: 0 <= k < |KeptIndices(s, rs)| ==> KeptIndices(s, rs)[k] < |rs|
    ensures forall k, l :: 0 <= k < l < |KeptIndices(s, rs)| ==> KeptIndices(s, rs)[k] < KeptIndices(s, rs)[l]
    ensures forall i :: 0 <= i < |rs| ==> (i in KeptIndices(s, rs) <==> Keeps(s, rs[i]))
  {
    if rs != [] {
      var init := rs[..|rs| - 1];
      KeptIndicesExact(s, init);
      assert forall i :: 0 <= i < |init| ==> rs[i] == init[i];
    }
  }

  /**
   * The dataset is the kept records mapped to their examples: example `k`
   * comes from the `k`-th kept record, so no record is dropped that passes
   * both tests and the table order is kept.
   */
  lemma {:induction false} AssembledFromKept(s: Setup, rs: seq<Record>)
    ensures |Assembled(s, rs)| == |KeptIndices(s, rs)|
    ensures forall k :: 0 <= k < |KeptIndices(s, rs)| ==>
              KeptIndices(s, rs)[k] < |rs| && Keeps(s, rs[KeptIndices(s, rs)[k]]) &&
              Assembled(s, rs)[k] == ExampleOf(s, rs[KeptIndices(s, rs)[k]])
  {
    if rs != [] {
      var init := rs[..|rs| - 1];
      AssembledFromKept(s, init);
      assert forall i :: 0 <= i < |init| ==> rs[i] == init[i];
    }
  }

  /**
   * Every example of the dataset is well formed: its label indexes the
   * vocabulary and its input has the recipe's width.
   */
  lemma AssembledWellFormed(s: Setup, rs: seq<Record>)
    ensures forall e :: e in Assembled(s, rs) ==>
              e.labelIndex < |s.vocab| && |e.input| == Layout.Width(s.recipe)
  {
  }

  /** Assembling a table in two parts and joining gives the same dataset. */
  lemma {:induction false} AssembledConcat(s: Setup, a: seq<Record>, b: seq<Record>)
    ensures Assembled(s, a + b) == Assembled(s, a) + Assembled(s, b)
    decreases |b|
  {
    if b != [] {
      var b' := b[..|b| - 1];
      assert (a + b)[..|a + b| - 1] == a + b';
      AssembledConcat(s, a, b');
    } else {
      assert a + b == a;
    }
  }

  /**
   * A record whose label is outside the vocabulary shrinks the dataset by
   * exactly one against the same table with a record that is kept.
   */
  lemma ExcludedRecordCostsOne(s: Setup, a: seq<Record>, kept: Record, dropped: Record, b: seq<Record>)
    requires Keeps(s, kept) && Column(dropped, s.target) !in s.vocab
    ensures |Assembled(s, a + [dropped] + b)| + 1 == |Assembled(s, a + [kept] + b)|
  {
    AssembledConcat(s, a + [dropped], b);
    AssembledConcat(s, a, [dropped]);
    AssembledConcat(s, a + [kept], b);
    AssembledConcat(s, a, [kept]);
    assert Assembled(s, [dropped]) == [] by {
      assert [dropped][..0] == [];
    }
    assert |Assembled(s, [kept])| == 1 by {
      assert [kept][..0] == [];
    }
  }

  /**
   * `max_tem` after the loop: 0 at the start, raised by every kept
   * template above it. It bounds every kept template, and it is either 0
   * or one of them.
   */
  function MaxTemplate(es: seq<Example>): (m: int)
    ensures m >= 0
    ensures forall k :: 0 <= k < |es| ==> es[k].tem <= m
    ensures m == 0 || exists k :: 0 <= k < |es| && es[k].tem == m
  {
    if es == [] then 0
    else
      var m := MaxTemplate(es[..|es| - 1]);
      if es[|es| - 1].tem > m then es[|es| - 1].tem else m
  }

  lemma AssembledStep(s: Setup, rs: seq<Record>, i: nat)
    requires i < |rs|
    ensures Assembled(s, rs[..i + 1]) ==
            Assembled(s, rs[..i]) + (if Keeps(s, rs[i]) then [ExampleOf(s, rs[i])] else [])
  {
    assert rs[..i + 1][..i] == rs[..i];
  }

  lemma MaxTemplateStep(es: seq<Example>, e: Example)
    ensures MaxTemplate(es + [e]) == if e.tem > MaxTemplate(es) then e.tem else MaxTemplate(es)
  {
  }

  /**
   * The record loop of `get_train_data` over the precomputed fingerprint
   * columns: skip records with an unknown label or no reaction
   * fingerprint, concatenate the rest, track the largest template.
   */
  method AssembleRecords(s: Setup, records: seq<Record>, rxnfps: seq<Option<RxnFp>>,
                         catfp: seq<Fp>, solvfp: seq<Fp>, reagfp0: seq<Fp>, reagfp1: seq<Fp>)
    returns (tData: seq<Example>, maxTem: int)
    requires |rxnfps| == |records|
    requires forall i :: 0 <= i < |records| ==>
               rxnfps[i] == GetRxnFp(s.fp, records[i].reactants, records[i].products)
    requires s.recipe.cat ==>
               (|catfp| == |records| &&
                forall i :: 0 <= i < |records| ==> catfp[i] == GetConditionFp(s.fp, records[i].cat))
    requires s.recipe.solv ==>
               (|solvfp| == |records| &&
                forall i :: 0 <= i < |records| ==> solvfp[i] == GetConditionFp(s.fp, records[i].solv))
    requires s.recipe.reag0 ==>
               (|reagfp0| == |records| &&
                forall i :: 0 <= i < |records| ==> reagfp0[i] == GetConditionFp(s.fp, records[i].reag0))
    requires s.recipe.reag1 ==>
               (|reagfp1| == |records| &&
                forall i :: 0 <= i < |records| ==> reagfp1[i] == GetConditionFp(s.fp, records[i].reag1))
    ensures tData == Assembled(s, records)
    ensures maxTem == MaxTemplate(tData)
  {
    tData := [];
    maxTem := 0;
    var i := 0;
    while i < |records|
      invariant 0 <= i <= |records|
      invariant tData == Assembled(s, records[..i])
      invariant maxTem == MaxTemplate(tData)
    {
      AssembledStep(s, records, i);
      var rec := records[i];
      var y := Column(rec, s.target);
      if y in s.vocab && rxnfps[i].Some? {
        var x := rxnfps[i].value;
        var f := Layout.RecordFps(x,
          if s.recipe.cat then catfp[i] else Zeros(), if s.recipe.solv then solvfp[i] else Zeros(),
          if s.recipe.reag0 then reagfp0[i] else Zeros(), if s.recipe.reag1 then reagfp1[i] else Zeros());
        var input := Layout.ConcatInput(s.recipe, f);
        Layout.SelectedPartsDecide(s.recipe, f, FpsOf(s, rec));
        if rec.template > maxTem {
          maxTem := rec.template;
        }
        ghost var e := Example(input, rec.template, IndexOf(s.vocab, y));
        assert e == ExampleOf(s, rec);
        MaxTemplateStep(tData, e);
        tData := tData + [Example(input, rec.template, IndexOf(s.vocab, y))];
      }
      i := i + 1;
    }
    assert records[..|records|] == records;
  }

  /** The dataset `get_train_data` promises for a recognised target. */
  function SetupFor(vocabs: Vocabularies, t: Target, inputs: string, fp: Oracle): Setup {
    Setup(fp, t, VocabularyFor(vocabs, t), Layout.ParseRecipe(inputs))
  }

  /**
   * `get_train_data`: an unknown target fails before any work; otherwise
   * one pass over the table keeps the records that pass both tests,
   * concatenates their fingerprints in the fixed order and tracks the
   * largest template.
   */
  method GetTrainData(records: seq<Record>, vocabs: Vocabularies, target: string, inputs: string, fp: Oracle)
    returns (r: Result<TrainData, AssemblyError>)
    ensures ParseTarget(target).None? ==> r == Err(UnknownTarget)
    ensures ParseTarget(target).Some? ==>
              var s := SetupFor(vocabs, ParseTarget(target).value, inputs, fp);
              var es := Assembled(s, records);
              r == if es == [] then Err(NoExamples)
                   else Ok(TrainData(es, |s.vocab|, MaxTemplate(es) + 1))
  {
    var parsed := ParseTarget(target);
    if parsed.None? {
      return Err(UnknownTarget);
    }
    var t := parsed.value;
    var s := SetupFor(vocabs, t, inputs, fp);
    var rc := s.recipe;

    var n := |records|;
    var rxnfps := seq(n, i requires 0 <= i < n => GetRxnFp(fp, records[i].reactants, records[i].products));
    var catfp: seq<Fp> := [];
    var solvfp: seq<Fp> := [];
    var reagfp0: seq<Fp> := [];
    var reagfp1: seq<Fp> := [];
    if rc.cat {
      catfp := seq(n, i requires 0 <= i < n => GetConditionFp(fp, records[i].cat));
    }
    if rc.solv {
      solvfp := seq(n, i requires 0 <= i < n => GetConditionFp(fp, records[i].solv));
    }
    if rc.reag0 {
      reagfp0 := seq(n, i requires 0 <= i < n => GetConditionFp(fp, records[i].reag0));
    }
    if rc.reag1 {
      reagfp1 := seq(n, i requires 0 <= i < n => GetConditionFp(fp, records[i].reag1));
    }

    var tData, maxTem := AssembleRecords(s, records, rxnfps, catfp, solvfp, reagfp0, reagfp1);
    if tData == [] {
      return Err(NoExamples);
    }
    r := Ok(TrainData(tData, |s.vocab|, maxTem + 1));
  }
}
