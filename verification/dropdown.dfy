/** The choices of a filter drop-down: an "every value" entry whose value is
    the sentinel `"all"`, then one entry per distinct non-missing value of a
    column, in sorted order (`sorted(col.dropna().unique())`). */
module Dropdown {
  import opened Wrappers
  import opened Orders
  import opened Seqs
  import opened Grouping

  /** One `{"label": ..., "value": ...}` option; `caption` is the label shown. */
  datatype Choice = Choice(caption: string, value: string)

  /** The value of the "every value" entry. */
  const AllValue: string := "all"

  /** A cell of the column as a grouping key: `col.dropna()` is the keys of
      the column, in table order. */
  function Cell(v: Option<string>): Option<string> {
    v
  }

  /** One option per value, captioned by the value itself. */
  function ValueChoices(values: seq<string>): (r: seq<Choice>)
    ensures |r| == |values|
    ensures forall i | 0 <= i < |r| :: r[i] == Choice(values[i], values[i])
  {
    if values == [] then [] else [Choice(values[0], values[0])] + ValueChoices(values[1..])
  }

  /** The options of a drop-down over `column`, the first one labelled `allLabel`. */
  function Options(allLabel: string, column: seq<Option<string>>): seq<Choice> {
    [Choice(allLabel, AllValue)] + ValueChoices(SortedUnique(KeysOf(column, Cell), StrLe))
  }

  /** The first option is the sentinel; every other option is labelled by its
      value; those values are exactly the values present in the column, each
      once, in increasing string order. */
  lemma OptionsSpec(allLabel: string, column: seq<Option<string>>)
    ensures var r := Options(allLabel, column);
      && |r| >= 1
      && r[0] == Choice(allLabel, AllValue)
      && (forall i | 1 <= i < |r| :: r[i].caption == r[i].value && Some(r[i].value) in column)
      && (forall j | 0 <= j < |column| && column[j].Some? ::
            exists i :: 1 <= i < |r| && r[i].value == column[j].value)
      && (forall i, j | 1 <= i < j < |r| :: StrLe(r[i].value, r[j].value) && r[i].value != r[j].value)
  {
    var vs := SortedUnique(KeysOf(column, Cell), StrLe);
    SortedUniqueStrings(KeysOf(column, Cell));
    ValueChoicesSpec(allLabel, vs);
    var r := Options(allLabel, column);
    forall j | 0 <= j < |column| && column[j].Some?
      ensures exists i :: 1 <= i < |r| && r[i].value == column[j].value
    {
      assert column[j] in column && Cell(column[j]).Some?;
      assert column[j].value in vs;
    }
  }

  lemma ValueChoicesSpec(allLabel: string, vs: seq<string>)
    requires StrictlySortedBy(vs, StrLe)
    ensures var r := [Choice(allLabel, AllValue)] + ValueChoices(vs);
      && (forall i | 1 <= i < |r| :: r[i].caption == r[i].value && r[i].value in vs)
      && (forall v | v in vs :: exists i :: 1 <= i < |r| && r[i].value == v)
      && (forall i, j | 1 <= i < j < |r| :: StrLe(r[i].value, r[j].value) && r[i].value != r[j].value)
  {
    var r := [Choice(allLabel, AllValue)] + ValueChoices(vs);
    assert forall i | 1 <= i < |r| :: r[i].value == vs[i - 1];
    forall v | v in vs
      ensures exists i :: 1 <= i < |r| && r[i].value == v
    {
      var k :| 0 <= k < |vs| && vs[k] == v;
      assert r[k + 1].value == v;
    }
  }

  /** The value of every option after the first is present in the column. */
  lemma OptionValueInColumn(allLabel: string, column: seq<Option<string>>, i: int)
    requires 1 <= i < |Options(allLabel, column)|
    ensures Some(Options(allLabel, column)[i].value) in column
  {
    var vs := SortedUnique(KeysOf(column, Cell), StrLe);
    assert Options(allLabel, column)[i] == Choice(vs[i - 1], vs[i - 1]);
    assert vs[i - 1] in vs;
  }
}
