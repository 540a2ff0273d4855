/** `load_data` of Linear_Regression/data_loader.cpp: after the header,
    every line of exactly 31 fields becomes a row of 30 features and a
    target, and any other line is skipped.  `std::stod` is the parameter
    `stod`; a conversion that throws ends the load with the rows read so
    far kept in the out-parameters. */
module LinearLoader {
  import opened Csv
  import opened Vec
  import Wire

  /** `expected_columns`: 30 features and the target. */
  const ExpectedColumns := 31
  /** The features of a row: its first 30 fields. */
  const FeatureColumns := 30

  /** What one line contributes. */
  datatype Row = Skipped | Row(features: seq<real>, target: real) | Thrown

  /** A line's fields read as a row: skipped unless there are exactly 31;
      otherwise the first 30 fields converted in order, then the last. */
  function ReadRow(fields: seq<string>, stod: string -> Number<real>): (r: Row)
    ensures r.Skipped? <==> |fields| != ExpectedColumns
    ensures r.Row? ==> |r.features| == FeatureColumns
  {
    if |fields| != ExpectedColumns then Skipped
    else match ParseAll(fields[..FeatureColumns], stod)
      case Invalid => Thrown
      case Parsed(x) =>
        match stod(fields[|fields| - 1])
        case Invalid => Thrown
        case Parsed(y) => Row(x, y)
  }

  /** A row is read exactly from a line of 31 fields that all convert: its
      features are the first 30 values in order and its target the last. */
  lemma ReadRowExact(fields: seq<string>, stod: string -> Number<real>)
    ensures ReadRow(fields, stod).Row? <==>
              |fields| == ExpectedColumns && forall k :: 0 <= k < |fields| ==> stod(fields[k]).Parsed?
    ensures ReadRow(fields, stod).Row? ==>
              (forall k :: 0 <= k < FeatureColumns ==> ReadRow(fields, stod).features[k] == stod(fields[k]).value)
              && ReadRow(fields, stod).target == stod(fields[FeatureColumns]).value
  {
    if |fields| == ExpectedColumns {
      var firsts := fields[..FeatureColumns];
      assert forall k :: 0 <= k < FeatureColumns ==> firsts[k] == fields[k];
      assert fields == firsts + [fields[FeatureColumns]];
    }
  }

  /** The out-parameters after a load, and whether a conversion threw. */
  datatype Load = Load(features: seq<seq<real>>, labels: seq<real>, thrown: bool)

  /** The data lines read one after another onto `features` and `labels`. */
  function LoadLines(lines: seq<string>, stod: string -> Number<real>, features: seq<seq<real>>, labels: seq<real>): (r: Load)
    ensures features <= r.features && labels <= r.labels
    decreases |lines|
  {
    if lines == [] then Load(features, labels, false)
    else match ReadRow(Split(lines[0], ','), stod)
      case Skipped => LoadLines(lines[1..], stod, features, labels)
      case Thrown => Load(features, labels, true)
      case Row(x, y) => LoadLines(lines[1..], stod, features + [x], labels + [y])
  }

  /** The closing message reads `features[0]`, so a load that returns
      normally must hold at least one row. */
  predicate Announceable(r: Load) {
    r.thrown || |r.features| > 0
  }

  /** A load keeps what the out-parameters held, grows `features` and
      `labels` in lockstep, adds at most one row per line, and adds only
      rows of 30 features. */
  lemma {:induction false} LoadShape(lines: seq<string>, stod: string -> Number<real>, features: seq<seq<real>>, labels: seq<real>)
    ensures var r := LoadLines(lines, stod, features, labels);
            features <= r.features && labels <= r.labels
            && |r.features| - |features| == |r.labels| - |labels| <= |lines|
            && (AllLength(features, FeatureColumns) ==> AllLength(r.features, FeatureColumns))
    decreases |lines|
  {
    if lines != [] {
      var row := ReadRow(Split(lines[0], ','), stod);
      if row.Skipped? {
        LoadShape(lines[1..], stod, features, labels);
      } else if row.Row? {
        LoadShape(lines[1..], stod, features + [row.features], labels + [row.target]);
      }
    }
  }

  /** Every line is a well-formed row. */
  predicate AllRows(lines: seq<string>, stod: string -> Number<real>) {
    forall k :: 0 <= k < |lines| ==> ReadRow(Split(lines[k], ','), stod).Row?
  }

  /** The rows of well-formed lines, in line order. */
  function RowsOf(lines: seq<string>, stod: string -> Number<real>): (rows: seq<Row>)
    requires AllRows(lines, stod)
    ensures |rows| == |lines|
    ensures forall k :: 0 <= k < |lines| ==> rows[k] == ReadRow(Split(lines[k], ','), stod)
  {
    seq(|lines|, k requires 0 <= k < |lines| => ReadRow(Split(lines[k], ','), stod))
  }

  /** The features of each row, in order. */
  function FeaturesOf(rows: seq<Row>): seq<seq<real>>
    requires forall k :: 0 <= k < |rows| ==> rows[k].Row?
  {
    if rows == [] then [] else [rows[0].features] + FeaturesOf(rows[1..])
  }

  /** The target of each row, in order. */
  function TargetsOf(rows: seq<Row>): seq<real>
    requires forall k :: 0 <= k < |rows| ==> rows[k].Row?
  {
    if rows == [] then [] else [rows[0].target] + TargetsOf(rows[1..])
  }

  /** A file whose every data line is a well-formed row loads without
      throwing: the out-parameters gain the lines' features and targets,
      one row per line, in file order. */
  lemma {:induction false} LoadWellFormed(lines: seq<string>, stod: string -> Number<real>, features: seq<seq<real>>, labels: seq<real>)
    requires AllRows(lines, stod)
    ensures LoadLines(lines, stod, features, labels)
            == Load(features + FeaturesOf(RowsOf(lines, stod)), labels + TargetsOf(RowsOf(lines, stod)), false)
    decreases |lines|
  {
    if lines == [] {
      assert features + [] == features && labels + [] == labels;
    } else {
      var row := ReadRow(Split(lines[0], ','), stod);
      assert AllRows(lines[1..], stod) by {
        assert forall k :: 0 <= k < |lines[1..]| ==> lines[1..][k] == lines[k + 1];
      }
      LoadWellFormed(lines[1..], stod, features + [row.features], labels + [row.target]);
      LoadWellFormedCons(lines, stod, features, labels);
    }
  }

  /** One well-formed line of the induction of `LoadWellFormed`, given the
      lines after it. */
  lemma LoadWellFormedCons(lines: seq<string>, stod: string -> Number<real>, features: seq<seq<real>>, labels: seq<real>)
    requires lines != [] && AllRows(lines, stod) && AllRows(lines[1..], stod)
    requires var row := ReadRow(Split(lines[0], ','), stod);
             LoadLines(lines[1..], stod, features + [row.features], labels + [row.target])
             == Load(features + [row.features] + FeaturesOf(RowsOf(lines[1..], stod)),
                     labels + [row.target] + TargetsOf(RowsOf(lines[1..], stod)), false)
    ensures LoadLines(lines, stod, features, labels)
            == Load(features + FeaturesOf(RowsOf(lines, stod)), labels + TargetsOf(RowsOf(lines, stod)), false)
  {
    var row := ReadRow(Split(lines[0], ','), stod);
    var rows := RowsOf(lines, stod);
    assert rows[0] == row && rows[1..] == RowsOf(lines[1..], stod);
    assert LoadLines(lines, stod, features, labels) == LoadLines(lines[1..], stod, features + [row.features], labels + [row.target]);
    Wire.AppendAssoc(features, [row.features], FeaturesOf(rows[1..]));
    Wire.AppendAssoc(labels, [row.target], TargetsOf(rows[1..]));
  }

  /** Lines 42-48: the 30 features converted in order, then the target. */
  method ConvertRow(rowValues: seq<string>, stod: string -> Number<real>) returns (row: Row)
    requires |rowValues| == ExpectedColumns
    ensures row == ReadRow(rowValues, stod)
  {
    var featureRow := [];
    for i := 0 to FeatureColumns
      invariant |featureRow| == i
      invariant forall k :: 0 <= k < i ==> stod(rowValues[k]).Parsed? && featureRow[k] == stod(rowValues[k]).value
    {
      var value := stod(rowValues[i]);
      if value.Invalid? {
        assert rowValues[..FeatureColumns][i] == rowValues[i];
        return Thrown;
      }
      featureRow := featureRow + [value.value];
    }
    var firsts := ParseAll(rowValues[..FeatureColumns], stod);
    assert firsts.Parsed? && firsts.value == featureRow;
    var target := stod(rowValues[|rowValues| - 1]);
    if target.Invalid? {
      return Thrown;
    }
    row := Row(featureRow, target.value);
  }

  /** `load_data`: nothing happens when the file does not open; otherwise
      the header line is skipped and every further line is loaded. */
  method LoadData(content: string, isOpen: bool, stod: string -> Number<real>, features: seq<seq<real>>, labels: seq<real>)
    returns (features': seq<seq<real>>, labels': seq<real>, thrown: bool)
    requires isOpen ==> Announceable(LoadLines(DataLines(content), stod, features, labels))
    ensures !isOpen ==> features' == features && labels' == labels && !thrown
    ensures isOpen ==> Load(features', labels', thrown) == LoadLines(DataLines(content), stod, features, labels)
  {
    features', labels', thrown := features, labels, false;
    if !isOpen {
      return;
    }
    ghost var goal := LoadLines(DataLines(content), stod, features, labels);
    var ok, header, pos := Getline(content, 0, '\n');
    assert content[0..] == content;
    if ok {
      assert DataLines(content) == Split(content[pos..], '\n');
    } else {
      pos := 0;
    }
    while ok
      invariant pos <= |content|
      invariant LoadLines(Split(content[pos..], '\n'), stod, features', labels') == goal
      invariant !ok ==> Split(content[pos..], '\n') == []
      decreases |content| - pos, ok
    {
      var line, next;
      ok, line, next := Getline(content, pos, '\n');
      if ok {
        ghost var rest := Split(content[next..], '\n');
        assert ([line] + rest)[1..] == rest;
        var rowValues := SplitLine(line, ',');
        if |rowValues| == ExpectedColumns {
          var row := ConvertRow(rowValues, stod);
          if row.Thrown? {
            return features', labels', true;
          }
          features', labels' := features' + [row.features], labels' + [row.target];
        }
        pos := next;
      }
    }
  }
}
