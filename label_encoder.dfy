/**
  scikit-learn's `LabelEncoder` as the training script fits it and the app
  reads it back: `classes_` is `np.unique` of the training column, `transform`
  maps each text label to its position in `classes_` by a lookup in the table
  from class to position, and rejects the first label that was never seen.
*/
module LabelEncoding {
  import opened StringOrder
  import opened Wrappers

  /** The shape of a fitted `classes_`: ascending, no duplicates. */
  type ClassList = s: seq<Label> | StrictlySorted(s)

  /** A fitted encoder. It is never changed after fitting. */
  datatype Encoder = Encoder(classes: ClassList)

  /** `LabelEncoder().fit(labels)`: `classes_` becomes `np.unique(labels)`. */
  function Fit(labels: seq<Label>): (e: Encoder)
    ensures Elements(e.classes) == Elements(labels)
  {
    Encoder(Unique(labels))
  }

  /**
    The value the lookup table `{c: i for i, c in enumerate(classes_)}` holds
    for a class `x`: its index. It counts the classes below `x`; for a label
    that is not a class the table holds nothing, and that count is a filler
    no caller reads.
  */
  function ClassIndex(classes: ClassList, x: Label): (i: nat)
    ensures i <= |classes|
    ensures x in classes ==> i < |classes| && classes[i] == x
    decreases |classes|
  {
    if classes == [] then 0
    else
      var rest: ClassList := classes[1..];
      var i := ClassIndex(rest, x);
      if Less(classes[0], x) then
        LessIrreflexive(x);
        1 + i
      else
        if x in classes then
          NothingBelowFirst(classes, x);
          0
        else
          0
  }

  lemma NothingBelowFirst(classes: ClassList, x: Label)
    requires classes != [] && x in classes && !Less(classes[0], x)
    ensures classes[0] == x
  {
    var k :| 0 <= k < |classes| && classes[k] == x;
  }

  /** The `ValueError` for a label missing from the table: it names that one label. */
  datatype EncodeError = UnseenLabel(value: Label)

  /** The position of every label of `ys`, all of which are known. */
  function Codes(e: Encoder, ys: seq<Label>): (r: seq<nat>)
    requires forall y :: y in ys ==> y in e.classes
    ensures |r| == |ys|
    ensures forall k :: 0 <= k < |ys| ==> r[k] < |e.classes| && e.classes[r[k]] == ys[k]
  {
    if ys == [] then []
    else
      assert ys[0] in ys;
      [ClassIndex(e.classes, ys[0])] + Codes(e, ys[1..])
  }

  /** The index of the first label of `ys` that is not a class. */
  function FirstUnseen(e: Encoder, ys: seq<Label>): (j: nat)
    requires exists y :: y in ys && y !in e.classes
    ensures j < |ys| && ys[j] !in e.classes
    ensures forall i :: 0 <= i < j ==> ys[i] in e.classes
  {
    if ys[0] !in e.classes then 0
    else
      assert exists y :: y in ys[1..] && y !in e.classes;
      1 + FirstUnseen(e, ys[1..])
  }

  /**
    `encoder.transform(ys)` on text labels: each label is looked up in turn,
    and the first one missing from the table fails the whole call.
  */
  function Transform(e: Encoder, ys: seq<Label>): (r: Result<seq<nat>, EncodeError>)
    ensures r.Success? <==> forall y :: y in ys ==> y in e.classes
    ensures r.Success? ==>
      && |r.value| == |ys|
      && forall k :: 0 <= k < |ys| ==> r.value[k] < |e.classes| && e.classes[r.value[k]] == ys[k]
    ensures r.Failure? ==> exists j :: (
      && 0 <= j < |ys| && ys[j] == r.error.value && ys[j] !in e.classes
      && forall i :: 0 <= i < j ==> ys[i] in e.classes)
  {
    if forall y :: y in ys ==> y in e.classes then Success(Codes(e, ys))
    else Failure(UnseenLabel(ys[FirstUnseen(e, ys)]))
  }

  /**
    `LabelEncoder().fit_transform(ys)`: the fitted encoder and the code of
    every row of the training column.
  */
  function FitTransform(ys: seq<Label>): (r: (Encoder, seq<nat>))
    ensures Elements(r.0.classes) == Elements(ys)
    ensures |r.1| == |ys|
    ensures forall k :: 0 <= k < |ys| ==> r.1[k] < |r.0.classes| && r.0.classes[r.1[k]] == ys[k]
  {
    var e := Fit(ys);
    assert forall y :: y in ys ==> y in e.classes by {
      forall y | y in ys ensures y in e.classes {
        assert y in Elements(ys);
      }
    }
    (e, Codes(e, ys))
  }

  /** `classes_` after fitting is THE ascending duplicate-free list of the observed labels. */
  lemma FitIsCanonical(labels: seq<Label>, s: seq<Label>)
    requires StrictlySorted(s) && Elements(s) == Elements(labels)
    ensures Fit(labels).classes == s
  {
    UniqueIsCanonical(labels, s);
  }

  /** `codes` are what `e` gives `ys`: each row's code is its label's position among the classes. */
  predicate EncodesAs(e: Encoder, ys: seq<Label>, codes: seq<int>)
  {
    |codes| == |ys| &&
    forall k :: 0 <= k < |ys| ==> 0 <= codes[k] < |e.classes| && e.classes[codes[k]] == ys[k]
  }

  /** `fit(ys).transform(ys)` succeeds and gives the codes of `fit_transform(ys)`. */
  lemma FitThenTransform(ys: seq<Label>)
    ensures Transform(Fit(ys), ys) == Success(FitTransform(ys).1)
  {
    assert forall y :: y in ys ==> y in Fit(ys).classes by {
      forall y | y in ys ensures y in Fit(ys).classes {
        assert y in Elements(ys);
      }
    }
  }

  /**
    `fit_transform` is `fit` followed by `transform` on the same column, and
    its codes decode back to the labels.
  */
  lemma FitTransformEncodes(ys: seq<Label>)
    ensures FitTransform(ys) == (Fit(ys), Transform(Fit(ys), ys).value)
    ensures EncodesAs(Fit(ys), ys, FitTransform(ys).1)
  {
    FitThenTransform(ys);
  }

  /**
    `fit_transform` is determined by what its result means: an encoder whose
    classes are exactly the labels, and codes that decode back to the labels
    row by row, are the fitted encoder and its codes.
  */
  lemma FitTransformIsCanonical(ys: seq<Label>, e: Encoder, codes: seq<int>)
    requires Elements(e.classes) == Elements(ys) && EncodesAs(e, ys, codes)
    ensures e == Fit(ys) && codes == FitTransform(ys).1
  {
    FitIsCanonical(ys, e.classes);
    var r := FitTransform(ys);
    forall k | 0 <= k < |ys| ensures codes[k] == r.1[k] {
      PositionUnique(e, codes[k], r.1[k]);
    }
  }

  /** Each known label has exactly one code, and decoding that code gives the label back. */
  lemma CodeIsOnlyPosition(e: Encoder, x: Label, j: nat)
    requires j < |e.classes| && e.classes[j] == x
    ensures ClassIndex(e.classes, x) == j
  {
    var i := ClassIndex(e.classes, x);
    if i < j {
      assert Less(e.classes[i], e.classes[j]);
      LessIrreflexive(x);
    } else if j < i {
      assert Less(e.classes[j], e.classes[i]);
      LessIrreflexive(x);
    }
  }

  /** Distinct known labels get distinct codes. */
  lemma CodesInjective(e: Encoder, x: Label, y: Label)
    requires x in e.classes && y in e.classes
    ensures ClassIndex(e.classes, x) == ClassIndex(e.classes, y) <==> x == y
  {
  }

  /**
    A column drawn from a fixed vocabulary is fitted to classes within that
    vocabulary, and so to at most as many classes as the vocabulary lists.
  */
  lemma FitWithinVocabulary(labels: seq<Label>, vocabulary: seq<Label>)
    requires forall k :: 0 <= k < |labels| ==> labels[k] in vocabulary
    ensures forall c :: c in Fit(labels).classes ==> c in vocabulary
    ensures |Fit(labels).classes| <= |vocabulary|
  {
    var e := Fit(labels);
    assert Elements(e.classes) <= Elements(vocabulary) by {
      forall c | c in Elements(e.classes) ensures c in Elements(vocabulary) {
        assert c in Elements(labels);
        var k :| 0 <= k < |labels| && labels[k] == c;
      }
    }
    StrictlySortedCardinality(e.classes);
    ElementsCardinality(vocabulary);
    SubsetCardinality(Elements(e.classes), Elements(vocabulary));
    forall c | c in e.classes ensures c in vocabulary {
      assert c in Elements(e.classes);
    }
  }

  /** Fitting on the brands Maruti, Honda, BMW sorts them. */
  lemma FitThreeBrandsExample()
    ensures Fit(["Maruti", "Honda", "BMW"]).classes == ["BMW", "Honda", "Maruti"]
  {
    var s := ["BMW", "Honda", "Maruti"];
    assert Less(s[0], s[1]) && Less(s[1], s[2]) && Less(s[0], s[2]);
    assert Elements(s) == Elements(["Maruti", "Honda", "BMW"]);
    FitIsCanonical(["Maruti", "Honda", "BMW"], s);
  }

  /** ... and numbers them from zero in that order. */
  lemma CodesThreeBrandsExample(e: Encoder)
    requires e.classes == ["BMW", "Honda", "Maruti"]
    ensures ClassIndex(e.classes, "BMW") == 0
    ensures ClassIndex(e.classes, "Honda") == 1
    ensures ClassIndex(e.classes, "Maruti") == 2
  {
    CodeIsOnlyPosition(e, "BMW", 0);
    CodeIsOnlyPosition(e, "Honda", 1);
    CodeIsOnlyPosition(e, "Maruti", 2);
  }

  /** No label occurs at two positions of `classes_`. */
  lemma PositionUnique(e: Encoder, i: nat, j: nat)
    requires i < |e.classes| && j < |e.classes| && e.classes[i] == e.classes[j]
    ensures i == j
  {
    if i != j {
      LessIrreflexive(e.classes[i]);
    }
  }
}
