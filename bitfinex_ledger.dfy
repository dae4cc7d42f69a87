/**
 * `load` with the ledger's own catalog, and what follows for whole ledger
 * exports from the layout of that catalog.
 */
module BitfinexLedger {
  import opened Wrappers
  import opened Classifier
  import opened Ledger
  import BitfinexCatalog

  /** `load(stream)` over the rows the CSV reader produces from `stream`. */
  method Load(rows: seq<seq<string>>)
    returns (records: seq<Record>, diagnostics: seq<Diagnostic>, raised: Option<string>)
    ensures Output(records, diagnostics, raised) == LoadSpec(BitfinexCatalog.Bitfinex, rows)
  {
    records, diagnostics, raised := LoadWith(BitfinexCatalog.Bitfinex, rows);
  }

  /**
   * No record `load` yields is of type `crypto-withdrawal-fees`: the entry
   * of that name repeats the pattern of the earlier `crypto-withdrawal-fee`.
   */
  lemma NoCryptoWithdrawalFeesRecord(rows: seq<seq<string>>, j: nat)
    requires j < |LoadSpec(BitfinexCatalog.Bitfinex, rows).records|
    ensures var record := LoadSpec(BitfinexCatalog.Bitfinex, rows).records[j];
      "type" in record && record["type"] != Text("crypto-withdrawal-fees")
  {
    var catalog := BitfinexCatalog.Bitfinex;
    var header, data := Columns(rows), rows[1..];
    var record := Process(CatalogClassifier(catalog), header, data).records[j];
    var row := RecordOrigin(CatalogClassifier(catalog), header, data, j);
    var k := EmittedRecord(catalog, header, data[row], record);
    BitfinexCatalog.CryptoWithdrawalFeesNeverSelected(Zip(header, data[row])["description"]);
    BitfinexCatalog.CatalogLayout();
  }
}
