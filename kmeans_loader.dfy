/** `load_data` of KMeans/data_loader.cpp: after the header, field 0 of
    each line is pushed as a label as soon as it is converted, field 1 is
    pushed as the line's single feature, and later fields are not looked
    at.  `std::stoi` and `std::stof` are the parameters `stoi` and `stof`;
    a conversion that throws ends the load with whatever was pushed so far
    kept in the out-parameters. */
module KMeansLoader {
  import opened Csv

  /** The out-parameters after a load, and whether a conversion threw. */
  datatype Load = Load(features: seq<real>, labels: seq<int>, thrown: bool)

  /** The `column_index` loop over a line's remaining fields, from column
      `col`, onto `acc`. */
  function Columns(fields: seq<string>, col: nat, stoi: string -> Number<int>, stof: string -> Number<real>, acc: Load): (r: Load)
    ensures acc.features <= r.features && acc.labels <= r.labels
    decreases |fields|
  {
    if fields == [] || acc.thrown then acc
    else
      var acc' :=
        if col == 0 then
          match stoi(fields[0])
          case Invalid => acc.(thrown := true)
          case Parsed(y) => acc.(labels := acc.labels + [y])
        else if col == 1 then
          match stof(fields[0])
          case Invalid => acc.(thrown := true)
          case Parsed(x) => acc.(features := acc.features + [x])
        else acc;
      Columns(fields[1..], col + 1, stoi, stof, acc')
  }

  /** Columns from 2 on are never converted. */
  lemma {:induction false} LaterColumnsIgnored(fields: seq<string>, col: nat, stoi: string -> Number<int>,
                                               stof: string -> Number<real>, acc: Load)
    requires col >= 2
    ensures Columns(fields, col, stoi, stof, acc) == acc
    decreases |fields|
  {
    if fields != [] && !acc.thrown {
      LaterColumnsIgnored(fields[1..], col + 1, stoi, stof, acc);
    }
  }

  /** One line: an empty line adds nothing; otherwise field 0 is converted
      and pushed as a label, and, when there is a field 1, it is converted
      and pushed as a feature.  So a line of one field adds a label without
      a feature, and the fields after the second do not matter. */
  lemma LineEffect(fields: seq<string>, stoi: string -> Number<int>, stof: string -> Number<real>, features: seq<real>, labels: seq<int>)
    ensures var r := Columns(fields, 0, stoi, stof, Load(features, labels, false));
            (fields == [] ==> r == Load(features, labels, false))
            && (r.thrown <==> |fields| > 0 && (stoi(fields[0]).Invalid? || (|fields| > 1 && stof(fields[1]).Invalid?)))
            && (|fields| > 0 && stoi(fields[0]).Parsed? ==> r.labels == labels + [stoi(fields[0]).value])
            && (|fields| > 0 && stoi(fields[0]).Invalid? ==> r.labels == labels)
            && (|fields| > 1 && stoi(fields[0]).Parsed? && stof(fields[1]).Parsed? ==> r.features == features + [stof(fields[1]).value])
            && (|fields| <= 1 || r.thrown ==> r.features == features)
            && (|fields| > 2 ==> r == Columns(fields[..2], 0, stoi, stof, Load(features, labels, false)))
  {
    var a0 := Load(features, labels, false);
    if |fields| > 0 {
      var a1 := FirstColumn(fields, stoi, stof, a0);
      if |fields| == 1 {
        assert fields[1..] == [];
      } else {
        var a2 := SecondColumn(fields[1..], stoi, stof, a1);
        LaterColumnsIgnored(fields[2..], 2, stoi, stof, a2);
        var firsts := fields[..2];
        assert firsts[1..] == [fields[1]] && firsts[1..][1..] == [];
        var b1 := FirstColumn(firsts, stoi, stof, a0);
        var b2 := SecondColumn(firsts[1..], stoi, stof, b1);
      }
    }
  }

  /** Column 0: the label is converted and pushed. */
  lemma FirstColumn(fields: seq<string>, stoi: string -> Number<int>, stof: string -> Number<real>, acc: Load) returns (acc': Load)
    requires |fields| > 0 && !acc.thrown
    ensures acc' == match stoi(fields[0])
                    case Invalid => acc.(thrown := true)
                    case Parsed(y) => acc.(labels := acc.labels + [y])
    ensures Columns(fields, 0, stoi, stof, acc) == Columns(fields[1..], 1, stoi, stof, acc')
  {
    acc' := match stoi(fields[0])
            case Invalid => acc.(thrown := true)
            case Parsed(y) => acc.(labels := acc.labels + [y]);
  }

  /** Column 1: the feature is converted and pushed, unless column 0 threw. */
  lemma SecondColumn(fields: seq<string>, stoi: string -> Number<int>, stof: string -> Number<real>, acc: Load) returns (acc': Load)
    requires |fields| > 0
    ensures acc' == if acc.thrown then acc
                    else match stof(fields[0])
                      case Invalid => acc.(thrown := true)
                      case Parsed(x) => acc.(features := acc.features + [x])
    ensures Columns(fields, 1, stoi, stof, acc) == Columns(fields[1..], 2, stoi, stof, acc')
  {
    acc' := if acc.thrown then acc
            else match stof(fields[0])
              case Invalid => acc.(thrown := true)
              case Parsed(x) => acc.(features := acc.features + [x]);
    if acc.thrown {
      LaterColumnsIgnored(fields[1..], 2, stoi, stof, acc);
    }
  }

  /** The data lines read one after another onto `features` and `labels`. */
  function LoadLines(lines: seq<string>, stoi: string -> Number<int>, stof: string -> Number<real>, features: seq<real>, labels: seq<int>)
    : (r: Load)
    ensures features <= r.features && labels <= r.labels
    decreases |lines|
  {
    if lines == [] then Load(features, labels, false)
    else
      var r := Columns(Split(lines[0], ','), 0, stoi, stof, Load(features, labels, false));
      if r.thrown then r else LoadLines(lines[1..], stoi, stof, r.features, r.labels)
  }

  /** The lines with at least `n` fields. */
  function WithFields(lines: seq<string>, n: nat): (c: nat)
    ensures c <= |lines|
  {
    if lines == [] then 0 else (if |Split(lines[0], ',')| >= n then 1 else 0) + WithFields(lines[1..], n)
  }

  /** A load keeps what the out-parameters held.  Without a conversion
      error, every non-empty line adds one label and every line of two or
      more fields one feature, so the two lists differ in length by the
      number of one-field lines. */
  lemma {:induction false} LoadCounts(lines: seq<string>, stoi: string -> Number<int>, stof: string -> Number<real>,
                                      features: seq<real>, labels: seq<int>)
    ensures var r := LoadLines(lines, stoi, stof, features, labels);
            features <= r.features && labels <= r.labels
            && (!r.thrown ==> |r.labels| == |labels| + WithFields(lines, 1) && |r.features| == |features| + WithFields(lines, 2))
    decreases |lines|
  {
    if lines != [] {
      var fields := Split(lines[0], ',');
      LineEffect(fields, stoi, stof, features, labels);
      var r := Columns(fields, 0, stoi, stof, Load(features, labels, false));
      if !r.thrown {
        LoadCounts(lines[1..], stoi, stof, r.features, r.labels);
      }
    }
  }

  /** When every data line has at least two fields, a load without a
      conversion error adds exactly one label and one feature per line. */
  lemma Lockstep(lines: seq<string>, stoi: string -> Number<int>, stof: string -> Number<real>, features: seq<real>, labels: seq<int>)
    requires forall k :: 0 <= k < |lines| ==> |Split(lines[k], ',')| >= 2
    ensures var r := LoadLines(lines, stoi, stof, features, labels);
            !r.thrown ==> |r.labels| == |labels| + |lines| && |r.features| == |features| + |lines|
  {
    LoadCounts(lines, stoi, stof, features, labels);
    AllWithFields(lines, 2);
    AllWithFields(lines, 1);
  }

  lemma {:induction false} AllWithFields(lines: seq<string>, n: nat)
    requires forall k :: 0 <= k < |lines| ==> |Split(lines[k], ',')| >= n
    ensures WithFields(lines, n) == |lines|
  {
    if lines != [] {
      assert forall k :: 0 <= k < |lines[1..]| ==> lines[1..][k] == lines[k + 1];
      AllWithFields(lines[1..], n);
    }
  }

  /** Lines 30-41: the column loop over one line. */
  method ReadColumns(line: string, stoi: string -> Number<int>, stof: string -> Number<real>, features: seq<real>, labels: seq<int>)
    returns (features': seq<real>, labels': seq<int>, thrown: bool)
    ensures Load(features', labels', thrown) == Columns(Split(line, ','), 0, stoi, stof, Load(features, labels, false))
  {
    features', labels', thrown := features, labels, false;
    ghost var goal := Columns(Split(line, ','), 0, stoi, stof, Load(features, labels, false));
    var columnIndex := 0;
    var pos := 0;
    var ok := true;
    assert line[0..] == line;
    while ok
      invariant pos <= |line|
      invariant Columns(Split(line[pos..], ','), columnIndex, stoi, stof, Load(features', labels', false)) == goal
      invariant !ok ==> Split(line[pos..], ',') == []
      decreases |line| - pos, ok
    {
      var value, next;
      ok, value, next := Getline(line, pos, ',');
      if ok {
        ghost var rest := Split(line[next..], ',');
        assert ([value] + rest)[1..] == rest;
        if columnIndex == 0 {
          var target := stoi(value);
          if target.Invalid? {
            return features', labels', true;
          }
          labels' := labels' + [target.value];
        } else if columnIndex == 1 {
          var feature := stof(value);
          if feature.Invalid? {
            return features', labels', true;
          }
          features' := features' + [feature.value];
        }
        columnIndex := columnIndex + 1;
        pos := next;
      }
    }
  }

  /** `load_data`: nothing happens when the file does not open; otherwise
      the header line is skipped and every further line is read. */
  method LoadData(content: string, isOpen: bool, stoi: string -> Number<int>, stof: string -> Number<real>,
                  features: seq<real>, labels: seq<int>)
    returns (features': seq<real>, labels': seq<int>, thrown: bool)
    ensures !isOpen ==> features' == features && labels' == labels && !thrown
    ensures isOpen ==> Load(features', labels', thrown) == LoadLines(DataLines(content), stoi, stof, features, labels)
  {
    features', labels', thrown := features, labels, false;
    if !isOpen {
      return;
    }
    ghost var goal := LoadLines(DataLines(content), stoi, stof, features, labels);
    var ok, header, pos := Getline(content, 0, '\n');
    assert content[0..] == content;
    if ok {
      assert DataLines(content) == Split(content[pos..], '\n');
    } else {
      pos := 0;
    }
    while ok
      invariant pos <= |content|
      invariant LoadLines(Split(content[pos..], '\n'), stoi, stof, features', labels') == goal
      invariant !ok ==> Split(content[pos..], '\n') == []
      decreases |content| - pos, ok
    {
      var line, next;
      ok, line, next := Getline(content, pos, '\n');
      if ok {
        ghost var rest := Split(content[next..], '\n');
        assert ([line] + rest)[1..] == rest;
        features', labels', thrown := ReadColumns(line, stoi, stof, features', labels');
        if thrown {
          return;
        }
        pos := next;
      }
    }
  }
}
