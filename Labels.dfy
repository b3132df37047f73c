/**
 * Label normalisation (`extract_drug_name` in backend/main.py): the
 * classifier's labels are `_`-separated tokens such as `<code>_<name>_<dose>`,
 * and the human-readable drug name is the part between the first and the last
 * separator.
 */
module Labels {
  import opened Strings

  /** The separator between the tokens of a classifier label. */
  const Sep: char := '_'

  /**
   * `extract_drug_name`: the empty label is returned as it is; with three or
   * more pieces, the middle pieces rejoined (or the second piece if that join
   * is empty); with two pieces, the second; otherwise the label itself.
   */
  function ExtractDrugName(rawLabel: string): (name: string)
    ensures rawLabel == "" ==> name == ""
    ensures Sep !in rawLabel ==> name == rawLabel
  {
    if rawLabel == "" then rawLabel
    else
      var parts := Split(rawLabel, Sep);
      assert Sep !in rawLabel ==> |parts| == 1 by {
        if Sep !in rawLabel { SplitFree(rawLabel, Sep); }
      }
      if |parts| >= 3 then
        var core := Join(parts[1..|parts| - 1], Sep);
        if core != "" then core else parts[1]
      else if |parts| == 2 then parts[1]
      else rawLabel
  }

  /**
   * Reference definition, independent of split and join: the text strictly
   * between the first and the last separator, everything after the separator
   * when there is only one, and the whole label when there is none.
   */
  function DrugNameSpan(s: string): (r: string)
  {
    var i := Find(s, Sep);
    if i == |s| then s
    else
      var j := RFind(s, Sep);
      assert i <= j;
      if i == j then s[i + 1..] else s[i + 1..j]
  }

  /** `extract_drug_name` computes exactly the span between the separators. */
  lemma ExtractDrugNameIsSpan(s: string)
    ensures ExtractDrugName(s) == DrugNameSpan(s)
  {
    if s != "" {
      var i := Find(s, Sep);
      if i == |s| {
        assert Sep !in s;
        SplitFree(s, Sep);
      } else {
        var j := RFind(s, Sep);
        assert Sep !in s[..i];
        assert Sep !in s[j + 1..];
        if i == j {
          assert s == s[..i] + [Sep] + s[i + 1..];
          ExtractDrugNameTwoTokens(s[..i], s[i + 1..]);
        } else {
          assert s == s[..i] + [Sep] + s[i + 1..j] + [Sep] + s[j + 1..];
          ExtractDrugNameOuterTokens(s[..i], s[i + 1..j], s[j + 1..]);
        }
      }
    }
  }

  /** The drug name is always a contiguous piece of the label. */
  lemma ExtractDrugNameIsInfix(s: string)
    ensures exists a, b :: 0 <= a <= b <= |s| && ExtractDrugName(s) == s[a..b]
    ensures |ExtractDrugName(s)| <= |s|
  {
    ExtractDrugNameIsSpan(s);
    var i := Find(s, Sep);
    if i == |s| {
      assert ExtractDrugName(s) == s[0..|s|];
    } else {
      var j := RFind(s, Sep);
      if i == j {
        assert ExtractDrugName(s) == s[i + 1..|s|];
      } else {
        assert ExtractDrugName(s) == s[i + 1..j];
      }
    }
  }

  /**
   * A label is its own drug name exactly when it holds no separator; in
   * particular an already normalised name is a fixed point.
   */
  lemma ExtractDrugNameFixedPoint(s: string)
    ensures ExtractDrugName(s) == s <==> Sep !in s
  {
    ExtractDrugNameIsSpan(s);
    if Sep in s {
      var i := Find(s, Sep);
      assert i < |s|;
      assert |ExtractDrugName(s)| < |s|;
    }
  }

  /**
   * The `or parts[1]` fallback never changes the result: the middle join is
   * empty only when there is a single, empty middle piece, and that piece is
   * `parts[1]`.
   */
  lemma EmptyCoreFallbackIsEmpty(s: string)
    requires |Split(s, Sep)| >= 3
    requires Join(Split(s, Sep)[1..|Split(s, Sep)| - 1], Sep) == ""
    ensures Split(s, Sep)[1] == ""
  {
    var parts := Split(s, Sep);
    var middle := parts[1..|parts| - 1];
    assert middle[0] == parts[1];
  }

  /** `<code>_<name...>_<dose>`: everything between the outer separators. */
  lemma ExtractDrugNameOuterTokens(code: string, name: string, dose: string)
    requires Sep !in code && Sep !in dose
    ensures ExtractDrugName(code + [Sep] + name + [Sep] + dose) == name
  {
    var s := code + [Sep] + name + [Sep] + dose;
    assert s == code + [Sep] + (name + [Sep] + dose);
    SplitConcat(code, name + [Sep] + dose, Sep);
    SplitConcat(name, dose, Sep);
    SplitFree(code, Sep);
    SplitFree(dose, Sep);
    var parts := Split(s, Sep);
    assert parts[1..|parts| - 1] == Split(name, Sep);
    JoinSplit(name, Sep);
  }

  /** `<code>_<name>`: everything after the separator. */
  lemma ExtractDrugNameTwoTokens(code: string, name: string)
    requires Sep !in code && Sep !in name
    ensures ExtractDrugName(code + [Sep] + name) == name
  {
    SplitConcat(code, name, Sep);
    SplitFree(code, Sep);
    SplitFree(name, Sep);
  }

  /** The label shapes used as examples for the classifier's output. */
  lemma ExtractDrugNameExamples()
    ensures ExtractDrugName("X_ASPIRIN_500MG") == "ASPIRIN"
    ensures ExtractDrugName("X_ASPIRIN") == "ASPIRIN"
    ensures ExtractDrugName("ASPIRIN") == "ASPIRIN"
    ensures ExtractDrugName("") == ""
  {
    assert "X_ASPIRIN_500MG" == "X" + [Sep] + "ASPIRIN" + [Sep] + "500MG";
    ExtractDrugNameOuterTokens("X", "ASPIRIN", "500MG");
    assert "X_ASPIRIN" == "X" + [Sep] + "ASPIRIN";
    ExtractDrugNameTwoTokens("X", "ASPIRIN");
    ExtractDrugNameFixedPoint("ASPIRIN");
  }
}
