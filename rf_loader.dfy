/** `load_data` of RF/data_loader.cpp: after the header, every line
    becomes one sample, with field 1 as its label and fields 2 onwards as
    its features, and field 0 ignored.  `std::stoi` and `std::stof` are
    the parameters `stoi` and `stof`; a conversion that throws ends the
    load with the samples read so far kept in the out-parameters.  A line
    of fewer than two fields would push an uninitialised label, so every
    data line must have at least two. */
module RfLoader {
  import opened Csv
  import Wire

  /** One line's `feature_row` and `label`, and whether a conversion threw. */
  datatype Sample = Sample(features: seq<real>, classLabel: int, thrown: bool)

  /** The `column_index` loop over a line's remaining fields, from column
      `col`, onto `acc`. */
  function Columns(fields: seq<string>, col: nat, stoi: string -> Number<int>, stof: string -> Number<real>, acc: Sample): (r: Sample)
    ensures !r.thrown ==> |r.features| == |acc.features| + |fields| - (if col >= 2 then 0 else if 2 - col <= |fields| then 2 - col else |fields|)
    decreases |fields|
  {
    if fields == [] || acc.thrown then acc
    else
      var acc' :=
        if col == 1 then
          match stoi(fields[0])
          case Invalid => acc.(thrown := true)
          case Parsed(y) => acc.(classLabel := y)
        else if col >= 2 then
          match stof(fields[0])
          case Invalid => acc.(thrown := true)
          case Parsed(x) => acc.(features := acc.features + [x])
        else acc;
      Columns(fields[1..], col + 1, stoi, stof, acc')
  }

  /** The sample of a line with at least two fields.  The label starts
      as 0 here; column 1 always overwrites it. */
  function ReadSample(fields: seq<string>, stoi: string -> Number<int>, stof: string -> Number<real>): (r: Sample)
    requires |fields| >= 2
    ensures !r.thrown ==> |r.features| == |fields| - 2
  {
    Columns(fields, 0, stoi, stof, Sample([], 0, false))
  }

  /** The feature columns, once the label has been read. */
  lemma {:induction false} FeatureColumns(fields: seq<string>, col: nat, stoi: string -> Number<int>, stof: string -> Number<real>,
                                          acc: Sample)
    requires col >= 2 && !acc.thrown
    ensures var r := Columns(fields, col, stoi, stof, acc);
            r.classLabel == acc.classLabel
            && (r.thrown <==> ParseAll(fields, stof).Invalid?)
            && (!r.thrown ==> r.features == acc.features + ParseAll(fields, stof).value)
    decreases |fields|
  {
    if fields != [] {
      match stof(fields[0])
      case Invalid =>
      case Parsed(x) =>
        FeatureColumns(fields[1..], col + 1, stoi, stof, acc.(features := acc.features + [x]));
        FeatureColumnsCons(fields, col, stoi, stof, acc, x);
    }
  }

  /** One converted feature column of the induction of `FeatureColumns`,
      given the columns after it. */
  lemma FeatureColumnsCons(fields: seq<string>, col: nat, stoi: string -> Number<int>, stof: string -> Number<real>,
                           acc: Sample, x: real)
    requires fields != [] && col >= 2 && !acc.thrown && stof(fields[0]) == Parsed(x)
    requires var r := Columns(fields[1..], col + 1, stoi, stof, acc.(features := acc.features + [x]));
             r.classLabel == acc.classLabel
             && (r.thrown <==> ParseAll(fields[1..], stof).Invalid?)
             && (!r.thrown ==> r.features == acc.features + [x] + ParseAll(fields[1..], stof).value)
    ensures var r := Columns(fields, col, stoi, stof, acc);
            r.classLabel == acc.classLabel
            && (r.thrown <==> ParseAll(fields, stof).Invalid?)
            && (!r.thrown ==> r.features == acc.features + ParseAll(fields, stof).value)
  {
    var r := Columns(fields[1..], col + 1, stoi, stof, acc.(features := acc.features + [x]));
    assert Columns(fields, col, stoi, stof, acc) == r;
    if !r.thrown {
      var tail := ParseAll(fields[1..], stof).value;
      assert ParseAll(fields, stof).value == [x] + tail;
      Wire.AppendAssoc(acc.features, [x], tail);
    }
  }

  /** A line's sample: it throws exactly when field 1 is not an integer or
      a later field is not a number; otherwise its label is field 1 and
      its features are fields 2 onwards, in order.  Field 0 plays no part. */
  lemma SampleOfLine(fields: seq<string>, stoi: string -> Number<int>, stof: string -> Number<real>)
    requires |fields| >= 2
    ensures var r := ReadSample(fields, stoi, stof);
            (r.thrown <==> stoi(fields[1]).Invalid? || ParseAll(fields[2..], stof).Invalid?)
            && (!r.thrown ==> r.classLabel == stoi(fields[1]).value && r.features == ParseAll(fields[2..], stof).value)
            && forall first :: ReadSample([first] + fields[1..], stoi, stof) == r
  {
    forall first | true
      ensures ReadSample([first] + fields[1..], stoi, stof) == ReadSample(fields, stoi, stof)
    {
      var other := [first] + fields[1..];
      assert other[1..] == fields[1..];
    }
    assert fields[1..][1..] == fields[2..];
    var s0 := Sample([], 0, false);
    assert Columns(fields, 0, stoi, stof, s0) == Columns(fields[1..], 1, stoi, stof, s0);
    match stoi(fields[1])
    case Invalid =>
      assert Columns(fields[1..], 1, stoi, stof, s0) == Columns(fields[2..], 2, stoi, stof, s0.(thrown := true));
    case Parsed(y) =>
      assert Columns(fields[1..], 1, stoi, stof, s0) == Columns(fields[2..], 2, stoi, stof, Sample([], y, false));
      FeatureColumns(fields[2..], 2, stoi, stof, Sample([], y, false));
  }

  /** The out-parameters and `row_count` after a load, and whether a
      conversion threw. */
  datatype Load = Load(features: seq<seq<real>>, labels: seq<int>, rowCount: nat, thrown: bool)

  /** Every line has at least the two fields the loader reads a label from. */
  predicate Labelled(lines: seq<string>) {
    forall k :: 0 <= k < |lines| ==> |Split(lines[k], ',')| >= 2
  }

  /** The data lines read one after another onto `features` and `labels`. */
  function LoadLines(lines: seq<string>, stoi: string -> Number<int>, stof: string -> Number<real>,
                     features: seq<seq<real>>, labels: seq<int>, rowCount: nat): (r: Load)
    requires Labelled(lines)
    ensures features <= r.features && labels <= r.labels && rowCount <= r.rowCount
    decreases |lines|
  {
    if lines == [] then Load(features, labels, rowCount, false)
    else
      var sample := ReadSample(Split(lines[0], ','), stoi, stof);
      if sample.thrown then Load(features, labels, rowCount, true)
      else LoadLines(lines[1..], stoi, stof, features + [sample.features], labels + [sample.classLabel], rowCount + 1)
  }

  /** The closing message reads `features[0]`, so a load that returns
      normally must hold at least one sample. */
  predicate Announceable(r: Load) {
    r.thrown || |r.features| > 0
  }

  /** A load keeps what the out-parameters held and adds one feature row,
      one label and one to `row_count` for each line it gets through; a
      load without a conversion error gets through every line. */
  lemma {:induction false} LoadCounts(lines: seq<string>, stoi: string -> Number<int>, stof: string -> Number<real>,
                                      features: seq<seq<real>>, labels: seq<int>, rowCount: nat)
    requires Labelled(lines)
    ensures var r := LoadLines(lines, stoi, stof, features, labels, rowCount);
            features <= r.features && labels <= r.labels
            && |r.features| - |features| == |r.labels| - |labels| == r.rowCount - rowCount <= |lines|
            && (!r.thrown ==> r.rowCount == rowCount + |lines|)
    decreases |lines|
  {
    if lines != [] {
      var sample := ReadSample(Split(lines[0], ','), stoi, stof);
      if !sample.thrown {
        LoadCounts(lines[1..], stoi, stof, features + [sample.features], labels + [sample.classLabel], rowCount + 1);
      }
    }
  }

  /** Lines 31-39: the column loop over one line. */
  method ReadColumns(line: string, stoi: string -> Number<int>, stof: string -> Number<real>)
    returns (featureRow: seq<real>, classLabel: int, thrown: bool)
    requires |Split(line, ',')| >= 2
    ensures Sample(featureRow, classLabel, thrown) == ReadSample(Split(line, ','), stoi, stof)
  {
    featureRow, classLabel, thrown := [], 0, false;
    ghost var goal := ReadSample(Split(line, ','), stoi, stof);
    var columnIndex := 0;
    var pos := 0;
    var ok := true;
    assert line[0..] == line;
    while ok
      invariant pos <= |line|
      invariant Columns(Split(line[pos..], ','), columnIndex, stoi, stof, Sample(featureRow, classLabel, false)) == goal
      invariant !ok ==> Split(line[pos..], ',') == []
      decreases |line| - pos, ok
    {
      var value, next;
      ok, value, next := Getline(line, pos, ',');
      if ok {
        ghost var rest := Split(line[next..], ',');
        assert ([value] + rest)[1..] == rest;
        if columnIndex == 1 {
          var parsed := stoi(value);
          if parsed.Invalid? {
            return featureRow, classLabel, true;
          }
          classLabel := parsed.value;
        } else if columnIndex >= 2 {
          var parsed := stof(value);
          if parsed.Invalid? {
            return featureRow, classLabel, true;
          }
          featureRow := featureRow + [parsed.value];
        }
        columnIndex := columnIndex + 1;
        pos := next;
      }
    }
  }

  /** `load_data`: nothing happens when the file does not open; otherwise
      the header line is skipped and every further line is read as a
      sample and counted. */
  method LoadData(content: string, isOpen: bool, stoi: string -> Number<int>, stof: string -> Number<real>,
                  features: seq<seq<real>>, labels: seq<int>)
    returns (features': seq<seq<real>>, labels': seq<int>, rowCount: nat, thrown: bool)
    requires isOpen ==> Labelled(DataLines(content))
    requires isOpen ==> Announceable(LoadLines(DataLines(content), stoi, stof, features, labels, 0))
    ensures !isOpen ==> features' == features && labels' == labels && rowCount == 0 && !thrown
    ensures isOpen ==> Load(features', labels', rowCount, thrown) == LoadLines(DataLines(content), stoi, stof, features, labels, 0)
  {
    features', labels', rowCount, thrown := features, labels, 0, false;
    if !isOpen {
      return;
    }
    ghost var goal := LoadLines(DataLines(content), stoi, stof, features, labels, 0);
    var ok, header, pos := Getline(content, 0, '\n');
    assert content[0..] == content;
    if ok {
      assert DataLines(content) == Split(content[pos..], '\n');
    } else {
      pos := 0;
    }
    while ok
      invariant pos <= |content|
      invariant Labelled(Split(content[pos..], '\n'))
      invariant LoadLines(Split(content[pos..], '\n'), stoi, stof, features', labels', rowCount) == goal
      invariant !ok ==> Split(content[pos..], '\n') == []
      decreases |content| - pos, ok
    {
      var line, next;
      ok, line, next := Getline(content, pos, '\n');
      if ok {
        ghost var rest := Split(content[next..], '\n');
        assert ([line] + rest)[1..] == rest;
        assert ([line] + rest)[0] == line;
        var featureRow, classLabel, failed := ReadColumns(line, stoi, stof);
        if failed {
          return features', labels', rowCount, true;
        }
        features', labels', rowCount := features' + [featureRow], labels' + [classLabel], rowCount + 1;
        pos := next;
      }
    }
  }
}
