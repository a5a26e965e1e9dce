/**
 * The schema builder drops every header whose lower-cased form is `index`, while the loader
 * drops only the entry keyed exactly `Index`. The two agree on a file exactly when no header is
 * another spelling of `index`.
 */
module HeaderConsistency {
  import opened Seqs
  import opened Text
  import opened CreateSchema
  import opened InsertData

  /** The header names of a row's entries, in order. */
  function Keys(row: Row): (r: seq<string>)
    ensures |r| == |row|
  {
    seq(|row|, i requires 0 <= i < |row| => row[i].0)
  }

  predicate IsNotExactIndex(key: string)
  {
    key != "Index"
  }

  /** Filtering a row's entries filters its keys the same way. */
  lemma {:induction false} KeysFilterRow(row: Row)
    ensures Keys(FilterRow(row)) == Filter(IsNotExactIndex, Keys(row))
  {
    if row != [] {
      KeysFilterRow(row[1..]);
      assert Keys(row)[1..] == Keys(row[1..]);
      if IsKept(row[0]) {
        assert FilterRow(row) == [row[0]] + FilterRow(row[1..]);
        assert Keys([row[0]] + FilterRow(row[1..])) == [row[0].0] + Keys(FilterRow(row[1..]));
      }
    }
  }

  /** A header no spelling of which can be lost by one filter but kept by the other. */
  predicate FiltersAgreeOn(header: string)
  {
    ToLower(header) == "index" <==> header == "Index"
  }

  /**
   * For a row whose keys are the file's headers, the loader's filtered keys are exactly the
   * schema's columns (after `id`) if and only if every header that lower-cases to `index` is
   * spelled `Index`.
   */
  lemma RowMatchesSchema(headers: seq<string>, row: Row)
    requires Keys(row) == headers
    ensures Keys(FilterRow(row)) == FilterHeaders(headers) <==> forall h :: h in headers ==> FiltersAgreeOn(h)
  {
    KeysFilterRow(row);
    assert ToLower("Index") == "index";
    if forall h :: h in headers ==> FiltersAgreeOn(h) {
      FilterCongruent(IsNotExactIndex, IsDataHeader, headers);
    } else {
      var h :| h in headers && !FiltersAgreeOn(h);
      FilterMembers(IsNotExactIndex, headers);
      assert h in Filter(IsNotExactIndex, headers);
    }
  }

  /** A file headed `index` (lower case) keeps that key in its rows but gets no such column. */
  lemma LowercaseIndexHeader(row: Row)
    requires Keys(row) == ["index", "Name"]
    ensures Keys(FilterRow(row)) == ["index", "Name"]
    ensures FilterHeaders(["index", "Name"]) == ["Name"]
  {
    KeysFilterRow(row);
    assert Keys(row)[1..] == ["Name"];
    assert ToLower("index") == "index";
    assert ToLower("Name") != "index";
    assert Filter(IsDataHeader, ["index", "Name"])
        == Filter(IsDataHeader, ["Name"]);
    assert ["Name"][1..] == [];
  }
}
