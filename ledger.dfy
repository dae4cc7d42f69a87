/**
 * The ingestion generator `load`: the first row is the header (lower-cased),
 * every later row is zipped with it into a record, its date gets the "20"
 * century prefix, and the description is classified. Classified records are
 * emitted in input order; a row nothing classifies is reported once on the
 * diagnostic channel and emits nothing; a row without a `date` or
 * `description` field raises `KeyError`, which ends the stream.
 *
 * The row and stream semantics take the description classifier as a
 * function, so that they hold whatever it is; `load` itself uses the
 * first-match walk over a catalog, `CatalogClassifier`.
 */
module Ledger {
  import opened Wrappers
  import opened Regex
  import opened Classifier
  import Ascii

  /** A record value: a text field, or the `meta` dictionary of captured groups. */
  datatype Value = Text(text: string) | Groups(groups: Captures)

  type Record = map<string, Value>

  /** What is printed for an unclassified row: the raw row and its description. */
  datatype Diagnostic = Diagnostic(row: seq<string>, description: string)

  /**
   * Everything a consumer of `load` observes: the yielded records, the
   * diagnostics written to standard error, and the key of the `KeyError`
   * that ended the stream early, if one did.
   */
  datatype Output = Output(records: seq<Record>, diagnostics: seq<Diagnostic>, raised: Option<string>)

  function Min(a: nat, b: nat): nat {
    if a <= b then a else b
  }

  /**
   * `[v.lower() for v in row]`: every name keeps its position and length,
   * agrees with the original up to case, and holds no capital letter.
   */
  function LowerHeader(row: seq<string>): (r: seq<string>)
    ensures |r| == |row|
    ensures forall k :: 0 <= k < |r| ==> |r[k]| == |row[k]|
    ensures forall k, j :: 0 <= k < |r| && 0 <= j < |r[k]| ==>
      !Ascii.IsUpper(r[k][j]) && Ascii.Lower(r[k][j]) == Ascii.Lower(row[k][j])
  {
    seq(|row|, k requires 0 <= k < |row| => Ascii.LowerString(row[k]))
  }

  /**
   * `dict(zip(header, row))`: positions pair up while both sequences last,
   * surplus names or values are dropped, and a repeated name keeps the value
   * of its last position.
   */
  function Zip(header: seq<string>, row: seq<string>): (z: map<string, string>)
    ensures z.Keys == set k | 0 <= k < Min(|header|, |row|) :: header[k]
  {
    ZipFirst(header, row, Min(|header|, |row|))
  }

  /** The first `n` columns of `dict(zip(header, row))`. */
  function ZipFirst(header: seq<string>, row: seq<string>, n: nat): (z: map<string, string>)
    requires n <= |header| && n <= |row|
    ensures z.Keys == set k | 0 <= k < n :: header[k]
  {
    if n == 0 then map[]
    else ZipFirst(header, row, n - 1)[header[n - 1] := row[n - 1]]
  }

  lemma {:induction false} ZipFirstLastWins(header: seq<string>, row: seq<string>, n: nat, k: nat)
    requires n <= |header| && n <= |row| && k < n
    requires forall j :: k < j < n ==> header[j] != header[k]
    ensures ZipFirst(header, row, n)[header[k]] == row[k]
  {
    if k < n - 1 {
      ZipFirstLastWins(header, row, n - 1, k);
    }
  }

  /** A column whose name does not recur further right keeps its own value. */
  lemma ZipLastWins(header: seq<string>, row: seq<string>, k: nat)
    requires k < |header| && k < |row|
    requires forall j :: k < j < Min(|header|, |row|) ==> header[j] != header[k]
    ensures Zip(header, row)[header[k]] == row[k]
  {
    ZipFirstLastWins(header, row, Min(|header|, |row|), k);
  }

  /** The fields `load` reads from every data row. */
  predicate HasKeyFields(header: seq<string>, row: seq<string>) {
    "date" in Zip(header, row) && "description" in Zip(header, row)
  }

  /** What one data row contributes: a record, a diagnostic, or a `KeyError`. */
  datatype RowResult = Emit(record: Record) | Report(diagnostic: Diagnostic) | Raise(key: string)

  /** The zipped fields as record values. */
  function AsRecord(z: map<string, string>): Record {
    map key | key in z :: Text(z[key])
  }

  /**
   * A zipped row as a record: the same fields, `date` prefixed with the
   * century "20", every other field unchanged.
   */
  function Normalize(z: map<string, string>): (r: Record)
    requires "date" in z
    ensures r.Keys == z.Keys
    ensures r["date"] == Text("20" + z["date"])
    ensures forall key :: key in z && key != "date" ==> r[key] == Text(z[key])
  {
    AsRecord(z)["date" := Text("20" + z["date"])]
  }

  /** One data row: raised on a missing key, else emitted when classified, else reported. */
  function ProcessRow(classify: string -> Classification, header: seq<string>, row: seq<string>): RowResult {
    var z := Zip(header, row);
    if "date" !in z then Raise("date")
    else if "description" !in z then Raise("description")
    else
      var memo := z["description"];
      match classify(memo)
      case Matched(name, meta) => Emit(Normalize(z)["type" := Text(name)]["meta" := Groups(meta)])
      case Unmatched => Report(Diagnostic(row, memo))
  }

  /**
   * A data row raises exactly when it lacks `date` or `description`, and
   * then names the first of the two it lacks. Otherwise it is emitted
   * exactly when its description is classified; the emitted record holds
   * every zipped field unchanged except `date`, which gains the "20" prefix,
   * plus `type` (the classification's name) and `meta` (its captured
   * groups). An unclassified row is reported with the raw row and its
   * description.
   */
  lemma RowOutcome(classify: string -> Classification, header: seq<string>, row: seq<string>)
    ensures var r := ProcessRow(classify, header, row);
      var z := Zip(header, row);
      && (r.Raise? <==> !HasKeyFields(header, row))
      && (r.Raise? ==> r.key !in z && (r.key == "date" || "date" in z))
    ensures HasKeyFields(header, row) ==>
      var r := ProcessRow(classify, header, row);
      var z := Zip(header, row);
      var c := classify(z["description"]);
      && (r.Emit? <==> c.Matched?)
      && (r.Report? ==> r.diagnostic == Diagnostic(row, z["description"]))
      && (r.Emit? ==>
        && r.record.Keys == z.Keys + {"type", "meta"}
        && r.record["date"] == Text("20" + z["date"])
        && r.record["type"] == Text(c.name)
        && r.record["meta"] == Groups(c.meta)
        && forall key :: key in z && key != "date" && key != "type" && key != "meta" ==>
          r.record[key] == Text(z[key]))
  {
  }

  /** Adds one row's result to the output of the rows before it. */
  function Append(out: Output, r: RowResult): Output {
    match r
    case Emit(record) => Output(out.records + [record], out.diagnostics, None)
    case Report(diagnostic) => Output(out.records, out.diagnostics + [diagnostic], None)
    case Raise(key) => Output(out.records, out.diagnostics, Some(key))
  }

  /** The data rows after the header, processed in order until one raises. */
  function Process(classify: string -> Classification, header: seq<string>, data: seq<seq<string>>): Output {
    if data == [] then Output([], [], None)
    else
      var prior := Process(classify, header, data[..|data| - 1]);
      if prior.raised.Some? then prior
      else Append(prior, ProcessRow(classify, header, data[|data| - 1]))
  }

  /**
   * Each data row contributes at most one record or diagnostic, and exactly
   * one when the stream did not end with a `KeyError`.
   */
  lemma {:induction false} ProcessSize(classify: string -> Classification, header: seq<string>, data: seq<seq<string>>)
    ensures var out := Process(classify, header, data);
      |out.records| + |out.diagnostics| <= |data|
      && (out.raised.None? ==> |out.records| + |out.diagnostics| == |data|)
    decreases |data|
  {
    if data != [] {
      ProcessSize(classify, header, data[..|data| - 1]);
    }
  }

  /** Processing one more row appends that row's result, unless the stream has ended. */
  lemma ProcessSnoc(classify: string -> Classification, header: seq<string>, data: seq<seq<string>>, row: seq<string>)
    ensures Process(classify, header, data + [row])
         == if Process(classify, header, data).raised.Some? then Process(classify, header, data)
            else Append(Process(classify, header, data), ProcessRow(classify, header, row))
  {
    assert (data + [row])[..|data|] == data;
  }

  /** The output of `first` followed by the output of `second`, cut off by a `KeyError` in `first`. */
  function Then(first: Output, second: Output): Output {
    if first.raised.Some? then first
    else Output(first.records + second.records, first.diagnostics + second.diagnostics, second.raised)
  }

  /**
   * Streaming: the rows are processed one at a time and independently, so
   * processing `a + b` yields what `a` yields followed by what `b` yields,
   * in order, unless `a` raised.
   */
  lemma {:induction false} ProcessAppend(classify: string -> Classification, header: seq<string>,
                                         a: seq<seq<string>>, b: seq<seq<string>>)
    ensures Process(classify, header, a + b) == Then(Process(classify, header, a), Process(classify, header, b))
    decreases |b|
  {
    if b == [] {
      assert a + b == a;
    } else {
      var b', x := b[..|b| - 1], b[|b| - 1];
      assert b == b' + [x];
      assert a + b == (a + b') + [x];
      ProcessAppend(classify, header, a, b');
      ProcessSnoc(classify, header, a + b', x);
      ProcessSnoc(classify, header, b', x);
      var pa, pb := Process(classify, header, a), Process(classify, header, b');
      if pa.raised.None? && pb.raised.None? {
        match ProcessRow(classify, header, x)
        case Emit(r) =>
          assert (pa.records + pb.records) + [r] == pa.records + (pb.records + [r]);
        case Report(d) =>
          assert (pa.diagnostics + pb.diagnostics) + [d] == pa.diagnostics + (pb.diagnostics + [d]);
        case Raise(_) =>
      }
    }
  }

  /** A `KeyError` ends the stream: rows after it add nothing. */
  lemma ProcessStopsAtError(classify: string -> Classification, header: seq<string>,
                            a: seq<seq<string>>, b: seq<seq<string>>)
    requires Process(classify, header, a).raised.Some?
    ensures Process(classify, header, a + b) == Process(classify, header, a)
  {
    ProcessAppend(classify, header, a, b);
  }

  predicate AllRowsWellFormed(header: seq<string>, data: seq<seq<string>>) {
    forall k :: 0 <= k < |data| ==> HasKeyFields(header, data[k])
  }

  /** The number of well-formed rows whose description is not classified. */
  function Unclassified(classify: string -> Classification, header: seq<string>, data: seq<seq<string>>): nat
    requires AllRowsWellFormed(header, data)
  {
    if data == [] then 0
    else
      Unclassified(classify, header, data[..|data| - 1])
      + (if classify(Zip(header, data[|data| - 1])["description"]).Unmatched? then 1 else 0)
  }

  /**
   * Over well-formed rows nothing raises, every unclassified row gives one
   * diagnostic, and every other row gives one record.
   */
  lemma {:induction false} ProcessCounts(classify: string -> Classification, header: seq<string>, data: seq<seq<string>>)
    requires AllRowsWellFormed(header, data)
    ensures Process(classify, header, data).raised.None?
    ensures |Process(classify, header, data).diagnostics| == Unclassified(classify, header, data)
    ensures |Process(classify, header, data).records| == |data| - Unclassified(classify, header, data)
    decreases |data|
  {
    if data != [] {
      var prefix := data[..|data| - 1];
      WellFormedPrefix(header, data);
      ProcessCounts(classify, header, prefix);
      RowOutcome(classify, header, data[|data| - 1]);
    }
  }

  lemma WellFormedPrefix(header: seq<string>, data: seq<seq<string>>)
    requires AllRowsWellFormed(header, data) && data != []
    ensures AllRowsWellFormed(header, data[..|data| - 1])
  {
    var prefix := data[..|data| - 1];
    forall k | 0 <= k < |prefix|
      ensures HasKeyFields(header, prefix[k])
    {
      assert prefix[k] == data[k];
    }
  }

  /** Every yielded record is the emitted record of some data row. */
  lemma {:induction false} RecordOrigin(classify: string -> Classification, header: seq<string>,
                                        data: seq<seq<string>>, j: nat)
    returns (row: nat)
    requires j < |Process(classify, header, data).records|
    ensures row < |data|
    ensures ProcessRow(classify, header, data[row]) == Emit(Process(classify, header, data).records[j])
    decreases |data|
  {
    var n := |data|;
    var prefix, last := data[..n - 1], data[n - 1];
    assert data == prefix + [last];
    ProcessSnoc(classify, header, prefix, last);
    var prior := Process(classify, header, prefix);
    if j < |prior.records| {
      row := RecordOrigin(classify, header, prefix, j);
      assert prefix[row] == data[row];
    } else {
      assert ProcessRow(classify, header, last).Emit?;
      row := n - 1;
    }
  }

  /** `load`'s classifier: the first-match walk over `catalog`. */
  function CatalogClassifier(catalog: Catalog): string -> Classification {
    d => Classify(catalog, d)
  }

  /** A row whose description entry `k` wins becomes the record `load` builds. */
  lemma RowEmits(catalog: Catalog, header: seq<string>, row: seq<string>, k: nat)
    requires HasKeyFields(header, row) && k < |catalog|
    requires FirstMatch(catalog, Zip(header, row)["description"]) == Some(k)
    ensures var z := Zip(header, row);
      ProcessRow(CatalogClassifier(catalog), header, row)
        == Emit(Normalize(z)["type" := Text(catalog[k].name)]
                            ["meta" := Groups(Match(catalog[k].pattern, z["description"]).value)])
  {
  }

  /** A row whose description no entry matches is reported. */
  lemma RowReports(catalog: Catalog, header: seq<string>, row: seq<string>)
    requires HasKeyFields(header, row)
    requires FirstMatch(catalog, Zip(header, row)["description"]).None?
    ensures ProcessRow(CatalogClassifier(catalog), header, row)
         == Report(Diagnostic(row, Zip(header, row)["description"]))
  {
  }

  /**
   * A row `load` emits is well formed, entry `k` is the first to match its
   * description, the record's `type` is that entry's name and its `meta`
   * holds that entry's captures, one per named group of its pattern.
   */
  lemma EmittedRecord(catalog: Catalog, header: seq<string>, row: seq<string>, record: Record)
    returns (k: nat)
    requires ProcessRow(CatalogClassifier(catalog), header, row) == Emit(record)
    ensures HasKeyFields(header, row) && k < |catalog|
    ensures var d := Zip(header, row)["description"];
      && FirstMatch(catalog, d) == Some(k)
      && "type" in record && "meta" in record
      && record["type"] == Text(catalog[k].name)
      && record["meta"] == Groups(Match(catalog[k].pattern, d).value)
      && record["meta"].groups.Keys == PatternGroups(catalog[k].pattern)
  {
    var d := Zip(header, row)["description"];
    k := FirstMatch(catalog, d).value;
    RowEmits(catalog, header, row, k);
  }

  /**
   * Every record `load` yields is built from a data row: the header row,
   * row 0, never becomes a record.
   */
  lemma LoadRecordOrigin(catalog: Catalog, rows: seq<seq<string>>, j: nat) returns (r: nat)
    requires j < |LoadSpec(catalog, rows).records|
    ensures 1 <= r < |rows|
    ensures ProcessRow(CatalogClassifier(catalog), Columns(rows), rows[r]) == Emit(LoadSpec(catalog, rows).records[j])
  {
    r := DataRowOrigin(CatalogClassifier(catalog), Columns(rows), rows, j);
  }

  /** `RecordOrigin` with rows numbered from the header row. */
  lemma DataRowOrigin(classify: string -> Classification, header: seq<string>, rows: seq<seq<string>>, j: nat)
    returns (r: nat)
    requires rows != [] && j < |Process(classify, header, rows[1..]).records|
    ensures 1 <= r < |rows|
    ensures ProcessRow(classify, header, rows[r]) == Emit(Process(classify, header, rows[1..]).records[j])
  {
    var data := rows[1..];
    var i := RecordOrigin(classify, header, data, j);
    assert data[i] == rows[i + 1];
    r := i + 1;
  }

  /** The header row of a non-empty input, lower-cased. */
  function Columns(rows: seq<seq<string>>): seq<string>
    requires rows != []
  {
    LowerHeader(rows[0])
  }

  /**
   * What `load` produces for a whole input: nothing for an empty or
   * header-only input, otherwise the data rows processed under the
   * lower-cased header.
   */
  function LoadSpec(catalog: Catalog, rows: seq<seq<string>>): Output {
    if rows == [] then Output([], [], None)
    else Process(CatalogClassifier(catalog), Columns(rows), rows[1..])
  }

  /**
   * An empty or header-only input yields nothing; otherwise, unless a
   * `KeyError` ends it, every data row yields one record or one diagnostic.
   */
  lemma LoadSpecSize(catalog: Catalog, rows: seq<seq<string>>)
    ensures var out := LoadSpec(catalog, rows);
      |rows| <= 1 ==> out == Output([], [], None)
    ensures var out := LoadSpec(catalog, rows);
      |rows| >= 1 ==> |out.records| + |out.diagnostics| <= |rows| - 1
    ensures var out := LoadSpec(catalog, rows);
      |rows| >= 1 && out.raised.None? ==> |out.records| + |out.diagnostics| == |rows| - 1
  {
    if rows != [] {
      ProcessSize(CatalogClassifier(catalog), Columns(rows), rows[1..]);
    }
  }

  /**
   * The catalog walk of `load`: tries the entries in insertion order and
   * stops at the first whose pattern matches `memo`, returning its index and
   * captured groups; `None` when the walk runs off the end of the catalog.
   */
  method FindEntry(catalog: Catalog, memo: string) returns (k: nat, matched: Option<Captures>)
    ensures matched.Some? ==> k < |catalog| && Match(catalog[k].pattern, memo) == matched
    ensures matched.Some? ==> FirstMatch(catalog, memo) == Some(k)
    ensures matched.None? <==> FirstMatch(catalog, memo).None?
  {
    matched := None;
    k := 0;
    while k < |catalog|
      invariant k <= |catalog|
      invariant matched.None?
      invariant forall j :: 0 <= j < k ==> !Matches(catalog, j, memo)
    {
      matched := Match(catalog[k].pattern, memo);
      if matched.Some? {
        FirstMatchCharacterized(catalog, memo, k);
        break;
      }
      k := k + 1;
    }
  }

  /**
   * `load` over already tokenised rows: the generator's yields are collected
   * in `records`, its prints to standard error in `diagnostics`, and a
   * `KeyError` that ends the generator in `raised`.
   */
  method LoadWith(catalog: Catalog, rows: seq<seq<string>>)
    returns (records: seq<Record>, diagnostics: seq<Diagnostic>, raised: Option<string>)
    ensures Output(records, diagnostics, raised) == LoadSpec(catalog, rows)
  {
    var header: Option<seq<string>> := None;
    records, diagnostics, raised := [], [], None;
    var i := 0;
    while i < |rows|
      invariant i <= |rows| && raised.None?
      invariant Consumed(catalog, rows, i, header, Output(records, diagnostics, raised))
    {
      header, records, diagnostics, raised := LoadStep(catalog, rows, i, header, records, diagnostics);
      if raised.Some? {
        return;
      }
      i := i + 1;
    }
    AllConsumed(catalog, rows, header, Output(records, diagnostics, raised));
  }

  /** Once every row is taken, the state is what `load` produces for the whole input. */
  lemma AllConsumed(catalog: Catalog, rows: seq<seq<string>>, header: Option<seq<string>>, out: Output)
    requires Consumed(catalog, rows, |rows|, header, out)
    ensures out == LoadSpec(catalog, rows)
  {
    if rows != [] {
      assert rows[1..|rows|] == rows[1..];
    }
  }

  /**
   * The state of `load` after its loop has taken the first `i` rows: no
   * header before the first row, then the lower-cased first row as header
   * and the output of the data rows taken so far.
   */
  ghost predicate Consumed(catalog: Catalog, rows: seq<seq<string>>, i: nat, header: Option<seq<string>>, out: Output)
    requires i <= |rows|
  {
    if i == 0 then header.None? && out == Output([], [], None)
    else header == Some(Columns(rows)) && out == Process(CatalogClassifier(catalog), Columns(rows), rows[1..i])
  }

  /**
   * One pass of `load`'s loop over row `i`: the first row becomes the
   * header, every later row is processed; a `KeyError` ends `load` with
   * its whole output.
   */
  method LoadStep(catalog: Catalog, rows: seq<seq<string>>, i: nat, header: Option<seq<string>>,
                  records0: seq<Record>, diagnostics0: seq<Diagnostic>)
    returns (header': Option<seq<string>>, records: seq<Record>, diagnostics: seq<Diagnostic>, raised: Option<string>)
    requires i < |rows| && Consumed(catalog, rows, i, header, Output(records0, diagnostics0, None))
    ensures raised.None? ==> Consumed(catalog, rows, i + 1, header', Output(records, diagnostics, raised))
    ensures raised.Some? ==> Output(records, diagnostics, raised) == LoadSpec(catalog, rows)
  {
    var row := rows[i];
    if header.None? {
      header', records, diagnostics, raised := Some(LowerHeader(row)), records0, diagnostics0, None;
      assert rows[1..1] == [];
    } else {
      header' := header;
      NextRow(rows, i);
      records, diagnostics, raised := LoadRow(catalog, header.value, rows[1..i], row, records0, diagnostics0);
      if raised.Some? {
        RestOfRows(rows, i + 1);
        ProcessStopsAtError(CatalogClassifier(catalog), header.value, rows[1..i + 1], rows[i + 1..]);
      }
    }
  }

  /** The data rows before row `i + 1` are those before row `i`, then row `i`. */
  lemma NextRow(rows: seq<seq<string>>, i: nat)
    requires 1 <= i < |rows|
    ensures rows[1..i + 1] == rows[1..i] + [rows[i]]
  {
  }

  /** The data rows are those before row `i`, then the rest. */
  lemma RestOfRows(rows: seq<seq<string>>, i: nat)
    requires 1 <= i <= |rows|
    ensures rows[1..i] + rows[i..] == rows[1..]
  {
  }

  /** One pass of the loop body of `load` for a data row. */
  method LoadRow(catalog: Catalog, header: seq<string>, ghost done: seq<seq<string>>, row: seq<string>,
                 records0: seq<Record>, diagnostics0: seq<Diagnostic>)
    returns (records: seq<Record>, diagnostics: seq<Diagnostic>, raised: Option<string>)
    requires Output(records0, diagnostics0, None) == Process(CatalogClassifier(catalog), header, done)
    ensures Output(records, diagnostics, raised) == Process(CatalogClassifier(catalog), header, done + [row])
  {
    ProcessSnoc(CatalogClassifier(catalog), header, done, row);
    records, diagnostics, raised := records0, diagnostics0, None;
    var fields := Zip(header, row);
    var record := AsRecord(fields);
    if "date" !in record {
      raised := Some("date");
      return;
    }
    record := record["date" := Text("20" + record["date"].text)];
    if "description" !in record {
      raised := Some("description");
      return;
    }
    assert record == Normalize(fields);
    var memo := record["description"].text;
    assert memo == fields["description"];
    var k, matched := FindEntry(catalog, memo);
    if matched.Some? {
      record := record["type" := Text(catalog[k].name)];
      record := record["meta" := Groups(matched.value)];
      RowEmits(catalog, header, row, k);
      records := records + [record];
    } else {
      RowReports(catalog, header, row);
      diagnostics := diagnostics + [Diagnostic(row, memo)];
    }
  }
}
