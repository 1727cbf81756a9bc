/** Sales records and the filter-and-sum specification of grouping them.

    A record is one row of the sales table: a mapping from column name to the
    cell's text. The aggregators group records by a key column (region or
    category) after stripping it, skip records whose key is blank, and add up
    numeric columns per group. The functions here state what those sums are
    over the whole input, independently of how the aggregators compute them:
    first over plain columns (the sequence of keys and the sequence of values,
    one per record), then over records by reading those columns off. */
module Records {
  import opened Text
  import opened Coercion

  type Record = map<string, string>

  const REGION := "Region"
  const CATEGORY := "Category"
  const SALES := "Sales"
  const PROFIT := "Profit"
  const DISCOUNT := "Discount"

  /** `row.get(field, default)`: the cell of `field`, or `default` when the
      record has no such column. */
  function Get(row: Record, field: string, default: string): string {
    if field in row then row[field] else default
  }

  /** `row.get(field, "").strip()`: the grouping key of a record. */
  function KeyOf(row: Record, field: string): string {
    Trim(Get(row, field, ""))
  }

  /** `_to_float(row.get(field, 0))`: a missing column is the integer 0,
      whose text `"0"` reads as 0. */
  function NumberOf(row: Record, field: string): real {
    ToFloat(Get(row, field, "0"))
  }

  /** The stripped key of every record, in input order. */
  function KeyColumn(data: seq<Record>, field: string): (ks: seq<string>)
    ensures |ks| == |data|
    ensures forall i :: 0 <= i < |data| ==> ks[i] == KeyOf(data[i], field)
  {
    seq(|data|, i requires 0 <= i < |data| => KeyOf(data[i], field))
  }

  /** The number read from `field` of every record, in input order. */
  function NumberColumn(data: seq<Record>, field: string): (vs: seq<real>)
    ensures |vs| == |data|
    ensures forall i :: 0 <= i < |data| ==> vs[i] == NumberOf(data[i], field)
  {
    seq(|data|, i requires 0 <= i < |data| => NumberOf(data[i], field))
  }

  /** How many entries of the key column are `key`. */
  function Count(ks: seq<string>, key: string): nat {
    if ks == [] then 0
    else Count(ks[..|ks| - 1], key) + (if ks[|ks| - 1] == key then 1 else 0)
  }

  /** The sum of the values whose key is `key`. */
  function Total(ks: seq<string>, vs: seq<real>, key: string): real
    requires |ks| == |vs|
  {
    if ks == [] then 0.0
    else Total(ks[..|ks| - 1], vs[..|vs| - 1], key) + (if ks[|ks| - 1] == key then vs[|vs| - 1] else 0.0)
  }

  /** The values whose key is `key`, in order. */
  function Collect(ks: seq<string>, vs: seq<real>, key: string): seq<real>
    requires |ks| == |vs|
  {
    if ks == [] then []
    else Collect(ks[..|ks| - 1], vs[..|vs| - 1], key) + (if ks[|ks| - 1] == key then [vs[|vs| - 1]] else [])
  }

  /** Python's `sum` over a list of numbers. */
  function Sum(xs: seq<real>): real {
    if xs == [] then 0.0 else Sum(xs[..|xs| - 1]) + xs[|xs| - 1]
  }

  /** The non-blank values of `ks`, each once, in the order in which each
      first occurs. */
  function FirstOccurrences(ks: seq<string>): (r: seq<string>)
    ensures forall i, j :: 0 <= i < j < |r| ==> r[i] != r[j]
    ensures forall k :: k in r <==> k != "" && k in ks
  {
    if ks == [] then []
    else
      var init, k := ks[..|ks| - 1], ks[|ks| - 1];
      assert ks == init + [k];
      var r := FirstOccurrences(init);
      if k == "" || k in r then r else r + [k]
  }

  /** The number of records whose stripped `keyField` is `key`. */
  function CountWhere(data: seq<Record>, keyField: string, key: string): nat {
    Count(KeyColumn(data, keyField), key)
  }

  /** The sum of `valueField` over the records whose key is `key`. */
  function SumWhere(data: seq<Record>, keyField: string, key: string, valueField: string): real {
    Total(KeyColumn(data, keyField), NumberColumn(data, valueField), key)
  }

  /** The values of `valueField` of the records whose key is `key`, in input
      order: one value per record. */
  function ValuesWhere(data: seq<Record>, keyField: string, key: string, valueField: string): seq<real> {
    Collect(KeyColumn(data, keyField), NumberColumn(data, valueField), key)
  }

  /** The keys of a group-by over `field`: the distinct non-blank stripped
      keys of `data`, in order of first occurrence. */
  function FirstKeys(data: seq<Record>, field: string): seq<string> {
    FirstOccurrences(KeyColumn(data, field))
  }

  // Facts about columns.

  /** Extending the columns by one entry adds that entry's value to its
      group's total and leaves the other groups' totals alone. */
  lemma TotalStep(ks: seq<string>, vs: seq<real>, i: nat)
    requires |ks| == |vs| && i < |ks|
    ensures forall key ::
      Total(ks[..i + 1], vs[..i + 1], key)
        == Total(ks[..i], vs[..i], key) + (if ks[i] == key then vs[i] else 0.0)
  {
    assert ks[..i + 1][..i] == ks[..i];
    assert vs[..i + 1][..i] == vs[..i];
  }

  /** Extending the columns by one entry appends that entry's value to its
      group's values and leaves the other groups' values alone. */
  lemma CollectStep(ks: seq<string>, vs: seq<real>, i: nat)
    requires |ks| == |vs| && i < |ks|
    ensures forall key ::
      Collect(ks[..i + 1], vs[..i + 1], key)
        == Collect(ks[..i], vs[..i], key) + (if ks[i] == key then [vs[i]] else [])
  {
    assert ks[..i + 1][..i] == ks[..i];
    assert vs[..i + 1][..i] == vs[..i];
  }

  /** Extending the key column by one entry adds its key at the end of the
      key list, unless it is blank or already there. */
  lemma FirstOccurrencesStep(ks: seq<string>, i: nat)
    requires i < |ks|
    ensures FirstOccurrences(ks[..i + 1])
         == var r := FirstOccurrences(ks[..i]);
            if ks[i] == "" || ks[i] in r then r else r + [ks[i]]
  {
    assert ks[..i + 1][..i] == ks[..i];
  }

  /** A key that does not occur has no entries, so nothing to add up. */
  lemma {:induction false} Absent(ks: seq<string>, vs: seq<real>, key: string)
    requires |ks| == |vs| && key !in ks
    ensures Count(ks, key) == 0
    ensures Total(ks, vs, key) == 0.0
    ensures Collect(ks, vs, key) == []
  {
    if ks != [] {
      var init := ks[..|ks| - 1];
      assert forall k :: k in init ==> k in ks;
      Absent(init, vs[..|vs| - 1], key);
    }
  }

  /** A key that occurs somewhere is counted. */
  lemma {:induction false} Occurs(ks: seq<string>, key: string, i: nat)
    requires i < |ks| && ks[i] == key
    ensures Count(ks, key) > 0
  {
    if i < |ks| - 1 {
      var init := ks[..|ks| - 1];
      assert init[i] == ks[i];
      Occurs(init, key, i);
    }
  }

  /** One collected value per entry of the group, adding up to its total. */
  lemma {:induction false} CollectTotal(ks: seq<string>, vs: seq<real>, key: string)
    requires |ks| == |vs|
    ensures |Collect(ks, vs, key)| == Count(ks, key)
    ensures Sum(Collect(ks, vs, key)) == Total(ks, vs, key)
  {
    if ks != [] {
      var init, rest := ks[..|ks| - 1], vs[..|vs| - 1];
      CollectTotal(init, rest, key);
      var cs := Collect(init, rest, key);
      if ks[|ks| - 1] == key {
        var ws := cs + [vs[|vs| - 1]];
        assert ws[..|ws| - 1] == cs;
        assert Collect(ks, vs, key) == ws;
        assert Sum(ws) == Sum(cs) + vs[|vs| - 1];
      } else {
        assert Collect(ks, vs, key) == cs + [] == cs;
      }
    }
  }

  /** A group's total over two columns laid end to end is the sum of its
      totals over each. */
  lemma {:induction false} TotalAppend(ks1: seq<string>, vs1: seq<real>, ks2: seq<string>, vs2: seq<real>, key: string)
    requires |ks1| == |vs1| && |ks2| == |vs2|
    ensures Total(ks1 + ks2, vs1 + vs2, key) == Total(ks1, vs1, key) + Total(ks2, vs2, key)
  {
    if ks2 == [] {
      assert ks1 + ks2 == ks1 && vs1 + vs2 == vs1;
    } else {
      var n := |ks2| - 1;
      assert (ks1 + ks2)[..|ks1 + ks2| - 1] == ks1 + ks2[..n];
      assert (vs1 + vs2)[..|vs1 + vs2| - 1] == vs1 + vs2[..n];
      TotalAppend(ks1, vs1, ks2[..n], vs2[..n], key);
    }
  }

  /** The first occurrences in a prefix of the column are a prefix of the
      first occurrences in the whole column. */
  lemma {:induction false} FirstOccurrencesPrefix(ks: seq<string>, n: nat)
    requires n <= |ks|
    ensures FirstOccurrences(ks[..n]) <= FirstOccurrences(ks)
  {
    if n < |ks| {
      var init := ks[..|ks| - 1];
      assert init[..n] == ks[..n];
      FirstOccurrencesPrefix(init, n);
      assert FirstOccurrences(init) <= FirstOccurrences(ks);
    } else {
      assert ks[..n] == ks;
    }
  }

  // Facts about records.

  lemma KeyColumnPrefix(data: seq<Record>, field: string, n: nat)
    requires n <= |data|
    ensures KeyColumn(data[..n], field) == KeyColumn(data, field)[..n]
  {
    var a, b := KeyColumn(data[..n], field), KeyColumn(data, field)[..n];
    forall i | 0 <= i < n ensures a[i] == b[i] {
      assert data[..n][i] == data[i];
    }
  }

  lemma KeyColumnAppend(a: seq<Record>, b: seq<Record>, field: string)
    ensures KeyColumn(a + b, field) == KeyColumn(a, field) + KeyColumn(b, field)
  {
    var ab := a + b;
    forall i | |a| <= i < |ab| ensures ab[i] == b[i - |a|] { }
  }

  lemma NumberColumnAppend(a: seq<Record>, b: seq<Record>, field: string)
    ensures NumberColumn(a + b, field) == NumberColumn(a, field) + NumberColumn(b, field)
  {
    var ab := a + b;
    forall i | |a| <= i < |ab| ensures ab[i] == b[i - |a|] { }
  }

  /** A key is in `FirstKeys` exactly when it is not blank and some record
      carries it. */
  lemma FirstKeysMembership(data: seq<Record>, field: string, k: string)
    ensures k in FirstKeys(data, field) <==> k != "" && exists i :: 0 <= i < |data| && KeyOf(data[i], field) == k
  {
    var ks := KeyColumn(data, field);
    if k in ks {
      var i :| 0 <= i < |ks| && ks[i] == k;
      assert KeyOf(data[i], field) == k;
    }
  }

  /** Every key is stripped: none is blank or whitespace-only, and none has
      whitespace at either end. */
  lemma FirstKeysStripped(data: seq<Record>, field: string, k: string)
    requires k in FirstKeys(data, field)
    ensures k != "" && !AllSpace(k) && Trim(k) == k
  {
    FirstKeysMembership(data, field, k);
    var i :| 0 <= i < |data| && KeyOf(data[i], field) == k;
    var row := data[i];
    TrimIdempotent(Get(row, field, ""));
  }

  /** A blank or whitespace-only value is never a key. */
  lemma BlankNeverKey(data: seq<Record>, field: string, s: string)
    requires AllSpace(s)
    ensures s !in FirstKeys(data, field)
  {
    if s in FirstKeys(data, field) {
      FirstKeysStripped(data, field, s);
    }
  }

  /** Every key has at least one record, and one value per record. */
  lemma FirstKeysCounted(data: seq<Record>, field: string, k: string, valueField: string)
    requires k in FirstKeys(data, field)
    ensures CountWhere(data, field, k) > 0
    ensures |ValuesWhere(data, field, k, valueField)| == CountWhere(data, field, k)
    ensures Sum(ValuesWhere(data, field, k, valueField)) == SumWhere(data, field, k, valueField)
  {
    var ks := KeyColumn(data, field);
    var i :| 0 <= i < |ks| && ks[i] == k;
    Occurs(ks, k, i);
    CollectTotal(ks, NumberColumn(data, valueField), k);
  }

  /** Keys keep the order of their first occurrence: the keys of any prefix
      of the input come first, in the same order. */
  lemma FirstKeysPrefix(data: seq<Record>, field: string, n: nat)
    requires n <= |data|
    ensures FirstKeys(data[..n], field) <= FirstKeys(data, field)
  {
    KeyColumnPrefix(data, field, n);
    FirstOccurrencesPrefix(KeyColumn(data, field), n);
  }

  /** A group's sum over the input is the sum of its sums over any split of
      the input into a front and a back part. */
  lemma SumWhereAppend(a: seq<Record>, b: seq<Record>, keyField: string, key: string, valueField: string)
    ensures SumWhere(a + b, keyField, key, valueField)
         == SumWhere(a, keyField, key, valueField) + SumWhere(b, keyField, key, valueField)
  {
    var ka, kb := KeyColumn(a, keyField), KeyColumn(b, keyField);
    var na, nb := NumberColumn(a, valueField), NumberColumn(b, valueField);
    KeyColumnAppend(a, b, keyField);
    NumberColumnAppend(a, b, valueField);
    TotalAppend(ka, na, kb, nb, key);
  }
}
