/**
 * The Bitfinex ledger catalog `BITFINEX_RE`: 34 entries in insertion order,
 * each a start-anchored pattern compiled with IGNORECASE. Most entries end
 * with the shared wallet suffix `OW`, which captures the wallet name in an
 * unnamed group and anchors at the end of the description.
 */
module BitfinexCatalog {
  import opened Wrappers
  import opened Regex
  import opened Classifier
  import Ascii

  // Shorthands for the pattern syntax the catalog uses.

  /** `(?P<name>body)` */
  function Named(name: string, body: Pattern): Node { Group(Some(name), body) }
  /** `(body)` */
  function Unnamed(body: Pattern): Node { Group(None, body) }
  /** `cls+` */
  function Plus(cls: CharClass): Node { Rep(cls, 1, None) }
  /** `cls*` */
  function Star(cls: CharClass): Node { Rep(cls, 0, None) }
  /** `cls` (exactly one character) */
  function One(cls: CharClass): Node { Rep(cls, 1, Some(1)) }

  /** `\d+(\.\d+)?` */
  const Number: Pattern := [Plus(Digit), Opt([Unnamed([Lit("."), Plus(Digit)])])]
  /** `\d+\.\d+` */
  const Decimal: Pattern := [Plus(Digit), Lit("."), Plus(Digit)]
  /** `\d+.\d+` (the middle character is any character) */
  const LooseDecimal: Pattern := [Plus(Digit), One(AnyButNewline), Plus(Digit)]
  /** `\d+\.?\d*` */
  const TransferAmount: Pattern := [Plus(Digit), Opt([Lit(".")]), Star(Digit)]

  /** `OW`: ` on wallet (\w+)$` */
  const OW: Pattern := [Lit(" on wallet "), Unnamed([Plus(Word)]), End]

  const Exchange: Pattern :=
    [Lit("Exchange "), Named("amount", Number), Lit(" "), Named("symbol", [Plus(Word)]),
     Lit(" for "), Named("currency", [Plus(Word)]), Lit(" @ "),
     Named("rate", [Plus(Digit), Opt([Unnamed([Lit("."), Plus(DigitOrExponent)])])])] + OW
  const Adjustment: Pattern := [Lit("Adjustment #"), Named("id", [Plus(Digit)])] + OW
  const Airdrop: Pattern :=
    [Named("coin", [Plus(Word)]), Lit(" "),
     Named("event", [Alt([Lit("airdrop")], [Lit("distribution")])])] + OW
  const AffiliateRebate: Pattern :=
    [Lit("Affiliate Rebate (lev:"), Named("level", [One(Digit)]), Lit(",rebate:"),
     Named("rate", LooseDecimal), Lit("%)")] + OW
  const Snapshot: Pattern :=
    [Named("coin", [Star(AnyButNewline)]), Lit(" snapshot step"), Unnamed([One(Digit)])] + OW
  const TokenRedemption: Pattern :=
    [Named("coin", [Star(AnyButNewline)]), Lit(" token redemption of "),
     Named("percent", [Plus(Digit), Opt([Unnamed([One(AnyButNewline), Plus(Digit)])])]),
     Lit("%")] + OW
  const Hacked: Pattern :=
    [Lit("Extraordinary loss adj of "), Named("amount", Number), Lit(" "),
     Named("currency", [Star(AnyButNewline)]), Lit(" for "), Named("iou_token_amount", Number),
     Lit(" "), Named("iou_token", [Plus(Word)]), Lit(" @ "), Named("exchange_rate", Number)] + OW
  const UsedMargin: Pattern := [Lit("Used Margin Funding Charge on wallet margin")]
  const UnusedMargin: Pattern :=
    [Lit("Unused Margin Funding "), Unnamed([Alt([Lit("Charge")], [Lit("Fee")])]),
     Lit(" on wallet margin"), End]
  const MarginFundingPayment: Pattern := [Lit("Margin Funding Payment")] + OW
  const MarginFundingEvent: Pattern :=
    [Lit("Funding Event "), Named("pair", [Plus(WordOrColon)]), Lit(" ("),
     Named("amount", Number), Lit(")")] + OW
  const MarginFundingCost: Pattern :=
    [Lit("Position #"), Named("id", [Plus(Digit)]), Lit(" funding cost")] + OW
  const PositionCost: Pattern := [Lit("Position funding cost")] + OW
  const Close: Pattern :=
    [Lit("Position closed @ "), Named("amount", Number),
     Opt([Named("method", [Lit(" (TRADE)")])])] + OW
  const Claimed: Pattern :=
    [Lit("Position "), Opt([Unnamed([Lit("#"), Named("id", [Plus(Digit)]), Lit(" ")])]),
     Lit("claimed @ "), Named("price", Decimal)] + OW
  const ClaimFee: Pattern :=
    [Lit("Claiming fee for Position claimed "), Named("pair", [Plus(Word)]), Lit(" @ "),
     Named("rate", Decimal)] + OW
  const ClaimedNoId: Pattern :=
    [Lit("Position claimed "), Named("pair", [Plus(Word)]), Lit(" @ "), Named("rate", Decimal)] + OW
  const Fees: Pattern :=
    [Lit("Trading fees for "), Named("amount", Number), Lit(" "), Named("currency", [Plus(Word)]),
     Lit(" "), Opt([Unnamed([Lit("("), Named("pair", [Plus(Word)]), Lit(") ")])]), Lit("@ "),
     Named("rate", Number), Lit(" on "), Named("exchange", [Plus(Word)]), Lit(" ("),
     Named("fee_rate", Decimal), Lit("%)")] + OW
  const ClaimedFee: Pattern :=
    [Lit("Position #"), Named("id", [Plus(Digit)]), Lit(" claimed @ "), Named("price", Decimal),
     Lit(" (fee: "), Named("fee", Decimal), Lit(" "), Named("currency", [Plus(Word)]), Lit(")")] + OW
  const Interest: Pattern := [Lit("Interest Payment")] + OW
  const Settlement: Pattern := [Lit("Settlement @ "), Named("rate", Decimal)] + OW
  const PositionSettlement: Pattern :=
    [Lit("Position PL @ "), Named("rate", Decimal), Lit(" settlement (trade)")] + OW
  const CryptoWithdrawalFee: Pattern := [Lit("Crypto Withdrawal fee")] + OW
  const WireWithdrawal: Pattern := [Lit("Wire Transfer Withdrawal #"), Named("id", [Plus(Digit)])] + OW
  const Deposit: Pattern :=
    [Lit("Deposit ("), Named("coin", [Plus(Word)]), Lit(") #"), Named("id", [Plus(Digit)])] + OW
  const DepositFee: Pattern :=
    [Lit("Deposit Fee ("), Named("source", [Plus(Word)]), Lit(") "), Named("id", [Plus(Digit)])] + OW
  const CryptoWithdrawal: Pattern :=
    [Named("coin", [Plus(Word)]), Lit(" "), Named("action", [Lit("Withdrawal")]), Lit(" #"),
     Named("id", [Plus(Digit)])] + OW
  const ReferralBonus: Pattern := [Lit("Earned fees from user "), Named("user", [Plus(Digit)])] + OW
  /** Written out a second time in the catalog, identical to `CryptoWithdrawalFee`. */
  const CryptoWithdrawalFees: Pattern := [Lit("Crypto Withdrawal fee")] + OW
  const CanceledWithdrawal: Pattern :=
    [Lit("Canceled withdrawal "), Named("reason", [Alt([Lit("fee")], [Lit("request")])]), Lit(" #"),
     Named("id", [Plus(Digit)])] + OW
  const SwapFees: Pattern := [Lit("Position #"), Named("id", [Plus(Digit)]), Lit(" swap")] + OW
  const Transfer: Pattern :=
    [Lit("Transfer of "), Named("amount", TransferAmount), Lit(" "), Named("currency", [Plus(Word)]),
     Lit(" from wallet "), Named("source", [Plus(Word)]), Lit(" to "),
     Named("target_type", [Plus(Word)])] + OW
  const TransferSubAccount: Pattern :=
    [Lit("Transfer of "), Named("amount", TransferAmount), Lit(" "), Named("cyy", [Plus(Word)]),
     Lit(" from wallet "), Named("source_type", [Plus(Word)]), Lit(" to "),
     Named("target_type", [Plus(Word)]), Lit(" SA("), Named("source_user", [Plus(Digit)]), Lit("->"),
     Named("target_user", [Plus(Digit)]), Lit(")")] + OW
  /** `[\w\d]` is the same class as `\w`. */
  const TradingRebate: Pattern :=
    [Lit("Trading rebate for "), Named("amount", Number), Lit(" "), Named("currency", [Plus(Word)]),
     Lit(" ("), Named("pair", [Plus(WordOrColon)]), Lit(") @ "), Named("rate", Number), Lit(" on "),
     Named("exchange", [Plus(Word)]), Lit(" ("), Named("rebate_rate", LooseDecimal), Lit("%)")] + OW

  /** `BITFINEX_RE`, in insertion order. */
  const Bitfinex: Catalog := [
    Entry("exchange", Exchange),
    Entry("adjustment", Adjustment),
    Entry("airdrop", Airdrop),
    Entry("affiliate-rebate", AffiliateRebate),
    Entry("snapshot", Snapshot),
    Entry("token-redemption", TokenRedemption),
    Entry("hacked", Hacked),
    Entry("used-margin", UsedMargin),
    Entry("unused-margin", UnusedMargin),
    Entry("margin-funding-payment", MarginFundingPayment),
    Entry("margin-funding-event", MarginFundingEvent),
    Entry("margin-funding-cost", MarginFundingCost),
    Entry("position-cost", PositionCost),
    Entry("close", Close),
    Entry("claimed", Claimed),
    Entry("claim-fee", ClaimFee),
    Entry("claimed-no-id", ClaimedNoId),
    Entry("fees", Fees),
    Entry("claimed-fee", ClaimedFee),
    Entry("interest", Interest),
    Entry("settlement", Settlement),
    Entry("position-settlement", PositionSettlement),
    Entry("crypto-withdrawal-fee", CryptoWithdrawalFee),
    Entry("wire-withdrawal", WireWithdrawal),
    Entry("deposit", Deposit),
    Entry("deposit-fee", DepositFee),
    Entry("crypto-withdrawal", CryptoWithdrawal),
    Entry("referral-bonus", ReferralBonus),
    Entry("crypto-withdrawal-fees", CryptoWithdrawalFees),
    Entry("canceled-withdrawal", CanceledWithdrawal),
    Entry("swap-fees", SwapFees),
    Entry("transfer", Transfer),
    Entry("transfer-sub-account", TransferSubAccount),
    Entry("trading-rebate", TradingRebate)
  ]

  predicate AllWordChars(s: string) {
    forall k :: 0 <= k < |s| ==> IsWordChar(s[k])
  }

  predicate AllDigits(s: string) {
    forall k :: 0 <= k < |s| ==> IsDigit(s[k])
  }

  /** The wallet suffix matches ` on wallet <w>` to the end, capturing nothing named. */
  lemma WalletSuffix(s: string, i: nat, caps: Captures)
    requires i + 11 < |s| && FoldEq(s[i..i + 11], " on wallet ")
    requires forall k :: i + 11 <= k < |s| ==> IsWordChar(s[k])
    ensures MatchSeq(OW, s, i, caps) != [] && MatchSeq(OW, s, i, caps)[0] == Outcome(|s|, caps)
  {
    EndStep(s, caps);
    SingleNode(End, s, |s|, caps);
    RunStep(Word, s, i + 11, |s| - i - 11, caps);
    SingleNode(Plus(Word), s, i + 11, caps);
    assert OW[1..][1..] == [End];
    SeqStep(OW[1..], s, i + 11, caps);
    LitStep(" on wallet ", s, i, caps);
    SeqStep(OW, s, i, caps);
  }

  lemma DepositGroups()
    ensures PatternGroups(Deposit) == {"coin", "id"}
  {
    var q3 := [Named("id", [Plus(Digit)])] + OW;
    var q2 := [Lit(") #")] + q3;
    var q1 := [Named("coin", [Plus(Word)])] + q2;
    assert Deposit == [Lit("Deposit (")] + q1;
    assert PatternGroups([End]) == {} by { GroupsCons(End, []); }
    GroupsCons(Unnamed([Plus(Word)]), [End]);
    assert PatternGroups([Plus(Word)]) == {} by { GroupsCons(Plus(Word), []); }
    GroupsCons(Lit(" on wallet "), [Unnamed([Plus(Word)]), End]);
    assert PatternGroups([Plus(Digit)]) == {} by { GroupsCons(Plus(Digit), []); }
    GroupsCons(Named("id", [Plus(Digit)]), OW);
    GroupsCons(Lit(") #"), q3);
    GroupsCons(Named("coin", [Plus(Word)]), q2);
    GroupsCons(Lit("Deposit ("), q1);
  }

  /** `(?P<id>\d+)` followed by the wallet suffix, read at fixed positions of `s`. */
  lemma IdThenWallet(s: string, i: nat, p: nat, caps: Captures)
    requires i < p && p + 11 < |s| && FoldEq(s[p..p + 11], " on wallet ")
    requires forall k :: i <= k < p ==> IsDigit(s[k])
    requires forall k :: p + 11 <= k < |s| ==> IsWordChar(s[k])
    requires s[p] == ' '
    ensures var r := MatchSeq([Named("id", [Plus(Digit)])] + OW, s, i, caps);
      r != [] && r[0] == Outcome(|s|, caps["id" := Some(s[i..p])])
  {
    var o := Outcome(p, caps["id" := Some(s[i..p])]);
    WalletSuffix(s, p, o.caps);
    NamedRunStep("id", Digit, s, i, p - i, caps);
    HeadThen(Named("id", [Plus(Digit)]), OW, s, i, caps, o);
  }

  /** The deposit pattern after the coin: `\) #(?P<id>\d+)` and the wallet suffix. */
  lemma DepositAfterCoin(s: string, p2: nat, p4: nat, caps: Captures)
    requires p2 + 3 < p4 && p4 + 11 < |s|
    requires FoldEq(s[p2..p2 + 3], ") #") && FoldEq(s[p4..p4 + 11], " on wallet ")
    requires forall k :: p2 + 3 <= k < p4 ==> IsDigit(s[k])
    requires forall k :: p4 + 11 <= k < |s| ==> IsWordChar(s[k])
    requires s[p4] == ' '
    ensures var r := MatchSeq([Lit(") #")] + ([Named("id", [Plus(Digit)])] + OW), s, p2, caps);
      r != [] && r[0] == Outcome(|s|, caps["id" := Some(s[p2 + 3..p4])])
  {
    IdThenWallet(s, p2 + 3, p4, caps);
    LitThen(") #", [Named("id", [Plus(Digit)])] + OW, s, p2, caps);
  }

  /** The deposit pattern read at fixed positions of `s`. */
  lemma DepositMatchAt(s: string, p2: nat, p4: nat, caps: Captures)
    requires 9 < p2 && p2 + 3 < p4 && p4 + 11 < |s|
    requires FoldEq(s[..9], "Deposit (") && FoldEq(s[p2..p2 + 3], ") #")
    requires FoldEq(s[p4..p4 + 11], " on wallet ")
    requires forall k :: 9 <= k < p2 ==> IsWordChar(s[k])
    requires forall k :: p2 + 3 <= k < p4 ==> IsDigit(s[k])
    requires forall k :: p4 + 11 <= k < |s| ==> IsWordChar(s[k])
    requires s[p2] == ')' && s[p4] == ' '
    ensures var r := MatchSeq(Deposit, s, 0, caps);
      r != [] && r[0] == Outcome(|s|, caps["coin" := Some(s[9..p2])]["id" := Some(s[p2 + 3..p4])])
  {
    var o := Outcome(p2, caps["coin" := Some(s[9..p2])]);
    var q2 := [Lit(") #")] + ([Named("id", [Plus(Digit)])] + OW);
    var q1 := [Named("coin", [Plus(Word)])] + q2;
    assert Deposit == [Lit("Deposit (")] + q1;
    DepositAfterCoin(s, p2, p4, o.caps);
    NamedRunStep("coin", Word, s, 9, p2 - 9, caps);
    HeadThen(Named("coin", [Plus(Word)]), q2, s, 9, caps, o);
    LitThen("Deposit (", q1, s, 0, caps);
  }

  /**
   * Round trip for the deposit shape: `Deposit (<c>) #<d> on wallet <w>`,
   * with the literal parts in any letter case, yields exactly
   * `{coin: c, id: d}`; the wallet is captured but is not a key.
   */
  lemma DepositRoundTrip(a: string, c: string, b: string, d: string, o: string, w: string)
    requires FoldEq(a, "Deposit (") && FoldEq(b, ") #") && FoldEq(o, " on wallet ")
    requires |c| > 0 && AllWordChars(c)
    requires |d| > 0 && AllDigits(d)
    requires |w| > 0 && AllWordChars(w)
    ensures Match(Deposit, a + c + b + d + o + w) == Some(map["coin" := Some(c), "id" := Some(d)])
  {
    var s := a + c + b + d + o + w;
    var p2 := 9 + |c|;
    var p4 := p2 + 3 + |d|;
    assert s[..9] == a && s[9..p2] == c && s[p2..p2 + 3] == b;
    assert s[p2 + 3..p4] == d && s[p4..p4 + 11] == o && s[p4 + 11..] == w;
    assert s[p2] == b[0] && s[p4] == o[0];
    assert Ascii.Lower(b[0]) == ')' && Ascii.Lower(o[0]) == ' ';
    DepositGroups();
    var caps := InitialCaptures(Deposit);
    DepositMatchAt(s, p2, p4, caps);
    assert MatchSeq(Deposit, s, 0, caps)[0].caps == caps["coin" := Some(c)]["id" := Some(d)];
    assert caps["coin" := Some(c)]["id" := Some(d)] == map["coin" := Some(c), "id" := Some(d)];
  }

  lemma WalletSuffixGroups()
    ensures PatternGroups(OW) == {}
  {
    assert PatternGroups([End]) == {} by { GroupsCons(End, []); }
    assert PatternGroups([Plus(Word)]) == {} by { GroupsCons(Plus(Word), []); }
    GroupsCons(Unnamed([Plus(Word)]), [End]);
    GroupsCons(Lit(" on wallet "), [Unnamed([Plus(Word)]), End]);
  }

  lemma AdjustmentGroups()
    ensures PatternGroups(Adjustment) == {"id"}
  {
    WalletSuffixGroups();
    assert PatternGroups([Plus(Digit)]) == {} by { GroupsCons(Plus(Digit), []); }
    GroupsCons(Named("id", [Plus(Digit)]), OW);
    assert Adjustment == [Lit("Adjustment #")] + ([Named("id", [Plus(Digit)])] + OW);
    GroupsCons(Lit("Adjustment #"), [Named("id", [Plus(Digit)])] + OW);
  }

  /** The adjustment pattern read at fixed positions of `s`. */
  lemma AdjustmentMatchAt(s: string, p2: nat, caps: Captures)
    requires 12 < p2 && p2 + 11 < |s|
    requires FoldEq(s[..12], "Adjustment #") && FoldEq(s[p2..p2 + 11], " on wallet ")
    requires forall k :: 12 <= k < p2 ==> IsDigit(s[k])
    requires forall k :: p2 + 11 <= k < |s| ==> IsWordChar(s[k])
    requires s[p2] == ' '
    ensures var r := MatchSeq(Adjustment, s, 0, caps);
      r != [] && r[0] == Outcome(|s|, caps["id" := Some(s[12..p2])])
  {
    var q := [Named("id", [Plus(Digit)])] + OW;
    assert Adjustment == [Lit("Adjustment #")] + q;
    IdThenWallet(s, 12, p2, caps);
    LitThen("Adjustment #", q, s, 0, caps);
  }

  /**
   * Round trip for the adjustment shape: `Adjustment #<d> on wallet <w>`,
   * literal parts in any letter case, yields exactly `{id: d}`.
   */
  lemma AdjustmentRoundTrip(a: string, d: string, o: string, w: string)
    requires FoldEq(a, "Adjustment #") && FoldEq(o, " on wallet ")
    requires |d| > 0 && AllDigits(d)
    requires |w| > 0 && AllWordChars(w)
    ensures Match(Adjustment, a + d + o + w) == Some(map["id" := Some(d)])
  {
    var s := a + d + o + w;
    var p2 := 12 + |d|;
    assert s[..12] == a && s[12..p2] == d && s[p2..p2 + 11] == o && s[p2 + 11..] == w;
    assert s[p2] == o[0] && Ascii.Lower(o[0]) == ' ';
    AdjustmentGroups();
    var caps := InitialCaptures(Adjustment);
    AdjustmentMatchAt(s, p2, caps);
    assert MatchSeq(Adjustment, s, 0, caps)[0].caps == caps["id" := Some(d)];
    assert caps["id" := Some(d)] == map["id" := Some(d)];
  }

  /**
   * `Crypto Withdrawal fee on wallet <w>` matches the crypto-withdrawal-fee
   * pattern with an empty meta: the pattern has no named groups.
   */
  lemma CryptoWithdrawalFeeRoundTrip(a: string, o: string, w: string)
    requires FoldEq(a, "Crypto Withdrawal fee") && FoldEq(o, " on wallet ")
    requires |w| > 0 && AllWordChars(w)
    ensures Match(CryptoWithdrawalFee, a + o + w) == Some(map[])
  {
    var s := a + o + w;
    assert s[..21] == a && s[21..32] == o && s[32..] == w;
    WalletSuffixGroups();
    GroupsCons(Lit("Crypto Withdrawal fee"), OW);
    assert CryptoWithdrawalFee == [Lit("Crypto Withdrawal fee")] + OW;
    var caps := InitialCaptures(CryptoWithdrawalFee);
    WalletSuffix(s, 21, caps);
    LitThen("Crypto Withdrawal fee", OW, s, 0, caps);
  }

  /** `\d+(\.\d+)?` on a whole number not followed by `.` stops after the digits. */
  lemma WholeNumber(s: string, i: nat, n: nat, caps: Captures)
    requires 1 <= n && i + n < |s|
    requires forall k :: i <= k < i + n ==> IsDigit(s[k])
    requires !IsDigit(s[i + n]) && s[i + n] != '.'
    ensures var r := MatchSeq(Number, s, i, caps); r != [] && r[0] == Outcome(i + n, caps)
  {
    var fraction := [Lit("."), Plus(Digit)];
    LitMismatch(".", s, i + n, 0, caps);
    SeqHeadFails(fraction, s, i + n, caps);
    SeqHeadFails([Unnamed(fraction)], s, i + n, caps);
    OptSkipped([Unnamed(fraction)], s, i + n, caps);
    SingleNode(Opt([Unnamed(fraction)]), s, i + n, caps);
    RunStep(Digit, s, i, n, caps);
    assert Number == [Plus(Digit)] + [Opt([Unnamed(fraction)])];
    ConsStep(Plus(Digit), [Opt([Unnamed(fraction)])], s, i, caps);
  }

  lemma CloseGroups()
    ensures PatternGroups(Close) == {"amount", "method"}
  {
    WalletSuffixGroups();
    var fraction := [Lit("."), Plus(Digit)];
    assert PatternGroups(fraction) == {} by {
      assert PatternGroups([Plus(Digit)]) == {} by { GroupsCons(Plus(Digit), []); }
      GroupsCons(Lit("."), [Plus(Digit)]);
    }
    assert PatternGroups(Number) == {} by {
      assert PatternGroups([Opt([Unnamed(fraction)])]) == {} by {
        GroupsCons(Unnamed(fraction), []);
        GroupsCons(Opt([Unnamed(fraction)]), []);
      }
      assert Number == [Plus(Digit)] + [Opt([Unnamed(fraction)])];
      GroupsCons(Plus(Digit), [Opt([Unnamed(fraction)])]);
    }
    var trade := Opt([Named("method", [Lit(" (TRADE)")])]);
    assert PatternGroups([Lit(" (TRADE)")]) == {} by { GroupsCons(Lit(" (TRADE)"), []); }
    GroupsCons(Named("method", [Lit(" (TRADE)")]), []);
    GroupsCons(trade, OW);
    GroupsCons(Named("amount", Number), [trade] + OW);
    assert Close == [Lit("Position closed @ ")] + ([Named("amount", Number)] + ([trade] + OW));
    GroupsCons(Lit("Position closed @ "), [Named("amount", Number)] + ([trade] + OW));
  }

  /** ` (TRADE)` is optional: where the text goes on with ` o`, it is skipped. */
  lemma TradeSkipped(s: string, i: nat, caps: Captures)
    requires i + 11 < |s| && FoldEq(s[i..i + 11], " on wallet ")
    requires forall k :: i + 11 <= k < |s| ==> IsWordChar(s[k])
    ensures var tradeGroup := Named("method", [Lit(" (TRADE)")]);
      var r := MatchSeq([Opt([tradeGroup])] + OW, s, i, caps);
      r != [] && r[0] == Outcome(|s|, caps)
  {
    var tradeGroup := Named("method", [Lit(" (TRADE)")]);
    assert s[i..i + 11][1] == s[i + 1];
    WalletSuffix(s, i, caps);
    LitMismatch(" (TRADE)", s, i, 1, caps);
    SeqHeadFails([Lit(" (TRADE)")], s, i, caps);
    SeqHeadFails([tradeGroup], s, i, caps);
    OptSkipped([tradeGroup], s, i, caps);
    ConsStep(Opt([tradeGroup]), OW, s, i, caps);
  }

  /** `(?P<name>\d+(\.\d+)?)` on a whole number followed by a space captures the digits. */
  lemma NamedWholeNumber(name: string, s: string, i: nat, p: nat, caps: Captures)
    requires i < p < |s| && s[p] == ' '
    requires forall k :: i <= k < p ==> IsDigit(s[k])
    ensures var r := MatchNode(Named(name, Number), s, i, caps);
      r != [] && r[0] == Outcome(p, caps[name := Some(s[i..p])])
  {
    WholeNumber(s, i, p - i, caps);
    assert MatchSeq(Number, s, i, caps)[0] == Outcome(p, caps);
    NamedGroupStep(name, Number, s, i, caps);
  }

  /** The close pattern after its leading literal, without ` (TRADE)`. */
  lemma CloseAfterLiteral(s: string, i: nat, p: nat, caps: Captures)
    requires i < p && p + 11 < |s| && FoldEq(s[p..p + 11], " on wallet ")
    requires forall k :: i <= k < p ==> IsDigit(s[k])
    requires forall k :: p + 11 <= k < |s| ==> IsWordChar(s[k])
    requires s[p] == ' '
    ensures var trade := Opt([Named("method", [Lit(" (TRADE)")])]);
      var r := MatchSeq([Named("amount", Number)] + ([trade] + OW), s, i, caps);
      r != [] && r[0] == Outcome(|s|, caps["amount" := Some(s[i..p])])
  {
    var o := Outcome(p, caps["amount" := Some(s[i..p])]);
    TradeSkipped(s, p, o.caps);
    NamedWholeNumber("amount", s, i, p, caps);
    HeadThen(Named("amount", Number), [Opt([Named("method", [Lit(" (TRADE)")])])] + OW, s, i, caps, o);
  }

  /** The close pattern read at fixed positions of `s`, without ` (TRADE)`. */
  lemma CloseMatchAt(s: string, p2: nat, caps: Captures)
    requires 18 < p2 && p2 + 11 < |s|
    requires FoldEq(s[..18], "Position closed @ ") && FoldEq(s[p2..p2 + 11], " on wallet ")
    requires forall k :: 18 <= k < p2 ==> IsDigit(s[k])
    requires forall k :: p2 + 11 <= k < |s| ==> IsWordChar(s[k])
    requires s[p2] == ' '
    ensures var r := MatchSeq(Close, s, 0, caps);
      r != [] && r[0] == Outcome(|s|, caps["amount" := Some(s[18..p2])])
  {
    var q := [Named("amount", Number)] + ([Opt([Named("method", [Lit(" (TRADE)")])])] + OW);
    CloseAfterLiteral(s, 18, p2, caps);
    assert Close == [Lit("Position closed @ ")] + q;
    LitThen("Position closed @ ", q, s, 0, caps);
  }

  /**
   * `Position closed @ <n> on wallet <w>` with a whole-number amount matches
   * `close` with `method` present in meta but `None`: the optional
   * ` (TRADE)` group did not take part.
   */
  lemma CloseWithoutTradeRoundTrip(a: string, n: string, o: string, w: string)
    requires FoldEq(a, "Position closed @ ") && FoldEq(o, " on wallet ")
    requires |n| > 0 && AllDigits(n)
    requires |w| > 0 && AllWordChars(w)
    ensures Match(Close, a + n + o + w) == Some(map["amount" := Some(n), "method" := None])
  {
    var s := a + n + o + w;
    var p2 := 18 + |n|;
    assert s[..18] == a && s[18..p2] == n && s[p2..p2 + 11] == o && s[p2 + 11..] == w;
    assert s[p2] == o[0] && Ascii.Lower(o[0]) == ' ';
    CloseGroups();
    var caps := InitialCaptures(Close);
    CloseMatchAt(s, p2, caps);
    assert MatchSeq(Close, s, 0, caps)[0].caps == caps["amount" := Some(n)];
    assert caps["amount" := Some(n)] == map["amount" := Some(n), "method" := None];
  }

  /** `\d+(\.\d+)?` and `\d+\.\d+` have no named groups. */
  lemma NumberGroups()
    ensures PatternGroups(Number) == {} && PatternGroups(Decimal) == {}
  {
    var fraction := [Lit("."), Plus(Digit)];
    assert PatternGroups([Plus(Digit)]) == {} by { GroupsCons(Plus(Digit), []); }
    assert PatternGroups(fraction) == {} by { GroupsCons(Lit("."), [Plus(Digit)]); }
    assert PatternGroups([Opt([Unnamed(fraction)])]) == {} by {
      GroupsCons(Unnamed(fraction), []);
      GroupsCons(Opt([Unnamed(fraction)]), []);
    }
    assert Number == [Plus(Digit)] + [Opt([Unnamed(fraction)])];
    GroupsCons(Plus(Digit), [Opt([Unnamed(fraction)])]);
    assert Decimal == [Plus(Digit)] + fraction;
    GroupsCons(Plus(Digit), fraction);
  }

  /** `\.\d+` after the whole part of a decimal. */
  lemma Fraction(s: string, p: nat, q: nat, caps: Captures)
    requires p + 1 < q < |s| && s[p] == '.'
    requires forall k :: p < k < q ==> IsDigit(s[k])
    requires !IsDigit(s[q])
    ensures var r := MatchSeq([Lit("."), Plus(Digit)], s, p, caps);
      r != [] && r[0] == Outcome(q, caps)
  {
    RunStep(Digit, s, p + 1, q - p - 1, caps);
    assert s[p..p + 1][0] == s[p];
    LitThen(".", [Plus(Digit)], s, p, caps);
  }

  /** `(?P<name>\d+\.\d+)` captures digits, a dot and digits up to the first non-digit. */
  lemma NamedDecimal(name: string, s: string, i: nat, p: nat, q: nat, caps: Captures)
    requires i < p && p + 1 < q < |s|
    requires forall k :: i <= k < p ==> IsDigit(s[k])
    requires s[p] == '.'
    requires forall k :: p < k < q ==> IsDigit(s[k])
    requires !IsDigit(s[q])
    ensures var r := MatchNode(Named(name, Decimal), s, i, caps);
      r != [] && r[0] == Outcome(q, caps[name := Some(s[i..q])])
  {
    Fraction(s, p, q, caps);
    RunStep(Digit, s, i, p - i, caps);
    assert Decimal == [Plus(Digit)] + [Lit("."), Plus(Digit)];
    HeadThen(Plus(Digit), [Lit("."), Plus(Digit)], s, i, caps, Outcome(p, caps));
    assert MatchSeq(Decimal, s, i, caps)[0] == Outcome(q, caps);
    NamedGroupStep(name, Decimal, s, i, caps);
  }

  /** `claimed` as its leading literal, the optional `#id ` part, and the rest. */
  lemma ClaimedLayout()
    ensures Claimed == [Lit("Position ")]
      + ([Opt([Unnamed([Lit("#"), Named("id", [Plus(Digit)]), Lit(" ")])])]
         + ([Lit("claimed @ ")] + ([Named("price", Decimal)] + OW)))
  {
  }

  lemma ClaimedGroups()
    ensures PatternGroups(Claimed) == {"id", "price"}
  {
    WalletSuffixGroups();
    NumberGroups();
    var idPart := [Lit("#"), Named("id", [Plus(Digit)]), Lit(" ")];
    assert PatternGroups(idPart) == {"id"} by {
      assert PatternGroups([Plus(Digit)]) == {} by { GroupsCons(Plus(Digit), []); }
      GroupsCons(Lit(" "), []);
      GroupsCons(Named("id", [Plus(Digit)]), [Lit(" ")]);
      GroupsCons(Lit("#"), [Named("id", [Plus(Digit)]), Lit(" ")]);
    }
    var rest := [Lit("claimed @ ")] + ([Named("price", Decimal)] + OW);
    GroupsCons(Named("price", Decimal), OW);
    GroupsCons(Lit("claimed @ "), [Named("price", Decimal)] + OW);
    GroupsCons(Unnamed(idPart), []);
    GroupsCons(Opt([Unnamed(idPart)]), rest);
    ClaimedLayout();
    GroupsCons(Lit("Position "), [Opt([Unnamed(idPart)])] + rest);
  }

  /** `claimed @ (?P<price>\d+\.\d+)` followed by the wallet suffix, from `i`. */
  lemma ClaimedPrice(s: string, i: nat, p: nat, q: nat, caps: Captures)
    requires i + 10 < p && p + 1 < q && q + 11 < |s|
    requires FoldEq(s[i..i + 10], "claimed @ ") && FoldEq(s[q..q + 11], " on wallet ")
    requires forall k :: i + 10 <= k < p ==> IsDigit(s[k])
    requires s[p] == '.'
    requires forall k :: p < k < q ==> IsDigit(s[k])
    requires forall k :: q + 11 <= k < |s| ==> IsWordChar(s[k])
    ensures var r := MatchSeq([Lit("claimed @ ")] + ([Named("price", Decimal)] + OW), s, i, caps);
      r != [] && r[0] == Outcome(|s|, caps["price" := Some(s[i + 10..q])])
  {
    assert s[q..q + 11][0] == s[q];
    var o := Outcome(q, caps["price" := Some(s[i + 10..q])]);
    NamedDecimal("price", s, i + 10, p, q, caps);
    WalletSuffix(s, q, o.caps);
    HeadThen(Named("price", Decimal), OW, s, i + 10, caps, o);
    LitThen("claimed @ ", [Named("price", Decimal)] + OW, s, i, caps);
  }

  /** Where the text goes on with `claimed`, the optional `#id ` part is skipped. */
  lemma IdSkipped(rest: Pattern, s: string, caps: Captures)
    requires 19 < |s| && FoldEq(s[9..19], "claimed @ ")
    requires MatchSeq(rest, s, 9, caps) != []
    ensures var idPart := [Lit("#"), Named("id", [Plus(Digit)]), Lit(" ")];
      var r := MatchSeq([Opt([Unnamed(idPart)])] + rest, s, 9, caps);
      r != [] && r[0] == MatchSeq(rest, s, 9, caps)[0]
  {
    var idPart := [Lit("#"), Named("id", [Plus(Digit)]), Lit(" ")];
    assert s[9..19][0] == s[9];
    LitMismatch("#", s, 9, 0, caps);
    SeqHeadFails(idPart, s, 9, caps);
    SeqHeadFails([Unnamed(idPart)], s, 9, caps);
    OptSkipped([Unnamed(idPart)], s, 9, caps);
    HeadThen(Opt([Unnamed(idPart)]), rest, s, 9, caps, Outcome(9, caps));
  }

  /** On a claimed text without `#id `, `claimed` matches to the end, capturing the price. */
  lemma ClaimedMatchAt(s: string, p: nat, q: nat, caps: Captures)
    requires 19 < p && p + 1 < q && q + 11 < |s|
    requires FoldEq(s[..9], "Position ") && FoldEq(s[9..19], "claimed @ ")
    requires FoldEq(s[q..q + 11], " on wallet ")
    requires forall k :: 19 <= k < p ==> IsDigit(s[k])
    requires s[p] == '.'
    requires forall k :: p < k < q ==> IsDigit(s[k])
    requires forall k :: q + 11 <= k < |s| ==> IsWordChar(s[k])
    ensures var r := MatchSeq(Claimed, s, 0, caps);
      r != [] && r[0] == Outcome(|s|, caps["price" := Some(s[19..q])])
  {
    var idPart := [Lit("#"), Named("id", [Plus(Digit)]), Lit(" ")];
    var rest := [Lit("claimed @ ")] + ([Named("price", Decimal)] + OW);
    ClaimedPrice(s, 9, p, q, caps);
    IdSkipped(rest, s, caps);
    ClaimedLayout();
    LitThen("Position ", [Opt([Unnamed(idPart)])] + rest, s, 0, caps);
  }

  /**
   * A claim without a position number: `id` did not take part in the match
   * and is reported as `None`, next to the claimed price.
   */
  lemma ClaimedWithoutIdRoundTrip(a: string, b: string, d1: string, d2: string, o: string, w: string)
    requires FoldEq(a, "Position ") && FoldEq(b, "claimed @ ") && FoldEq(o, " on wallet ")
    requires |d1| > 0 && AllDigits(d1) && |d2| > 0 && AllDigits(d2)
    requires |w| > 0 && AllWordChars(w)
    ensures Match(Claimed, a + b + d1 + "." + d2 + o + w)
         == Some(map["id" := None, "price" := Some(d1 + "." + d2)])
  {
    var s := a + b + d1 + "." + d2 + o + w;
    var p := 19 + |d1|;
    var q := p + 1 + |d2|;
    assert s[..9] == a && s[9..19] == b && s[19..p] == d1 && s[p] == '.';
    assert s[p + 1..q] == d2 && s[q..q + 11] == o && s[q + 11..] == w;
    assert s[19..q] == d1 + "." + d2;
    ClaimedGroups();
    var caps := InitialCaptures(Claimed);
    ClaimedMatchAt(s, p, q, caps);
    assert caps["price" := Some(d1 + "." + d2)] == map["id" := None, "price" := Some(d1 + "." + d2)];
  }

  // A fee line without a pair is described by the positions where its parts
  // end: the amount runs from 17 to p1, the currency from p1 + 1 to p2, the
  // rate from p2 + 3 to p3, the exchange from p3 + 4 to p4, and the fee rate
  // from p4 + 2 to p6, with its dot at p5.

  /** From ` (` at `i`: digits, a dot at `p`, digits, `%)` at `q`, then the wallet suffix. */
  ghost predicate FeeRateShape(s: string, i: nat, p: nat, q: nat) {
    i + 2 < p && p + 1 < q && q + 13 < |s|
    && FoldEq(s[i..i + 2], " (") && FoldEq(s[q..q + 2], "%)")
    && FoldEq(s[q + 2..q + 13], " on wallet ")
    && (forall k :: i + 2 <= k < p ==> IsDigit(s[k]))
    && s[p] == '.'
    && (forall k :: p < k < q ==> IsDigit(s[k]))
    && (forall k :: q + 13 <= k < |s| ==> IsWordChar(s[k]))
  }

  /** From the rate at `i`: digits up to ` on ` at `p3`, the exchange up to `p4`, and the fee rate. */
  ghost predicate RateShape(s: string, i: nat, p3: nat, p4: nat, p5: nat, p6: nat) {
    FeeRateShape(s, p4, p5, p6)
    && i < p3 && p3 + 4 < p4 && FoldEq(s[p3..p3 + 4], " on ")
    && (forall k :: i <= k < p3 ==> IsDigit(s[k]))
    && (forall k :: p3 + 4 <= k < p4 ==> IsWordChar(s[k]))
  }

  /** From the currency at `i`: word characters up to ` @ ` at `p2`, and the rate. */
  ghost predicate CurrencyShape(s: string, i: nat, p2: nat, p3: nat, p4: nat, p5: nat, p6: nat) {
    RateShape(s, p2 + 3, p3, p4, p5, p6)
    && i < p2 && s[p2..p2 + 3] == " @ "
    && (forall k :: i <= k < p2 ==> IsWordChar(s[k]))
  }

  /** A whole fee line without a pair. */
  ghost predicate FeesLineShape(s: string, p1: nat, p2: nat, p3: nat, p4: nat, p5: nat, p6: nat) {
    CurrencyShape(s, p1 + 1, p2, p3, p4, p5, p6)
    && 17 < p1 && FoldEq(s[..17], "Trading fees for ") && s[p1] == ' '
    && (forall k :: 17 <= k < p1 ==> IsDigit(s[k]))
  }

  // The `fees` pattern node by node: each lemma unrolls the nodes one step of the proof below consumes.

  lemma FeesNodes0()
    ensures Fees[0] == Lit("Trading fees for ")
  {
  }

  lemma FeesNodes1()
    ensures Fees[1..][0] == Named("amount", Number) && Fees[1..][1..] == Fees[2..]
  {
  }

  lemma FeesNodes2()
    ensures Fees[2..][0] == Lit(" ") && Fees[2..][1..] == Fees[3..]
    ensures Fees[3..] == [Named("currency", [Plus(Word)])] + Fees[4..]
  {
  }

  lemma FeesNodes4()
    ensures Fees[4..][0] == Lit(" ") && Fees[4..][1..] == Fees[5..]
  {
  }

  lemma FeesNodes5()
    ensures Fees[5..] == [Opt([Unnamed([Lit("("), Named("pair", [Plus(Word)]), Lit(") ")])])] + Fees[6..]
  {
  }

  lemma FeesNodes6()
    ensures Fees[6..] == [Lit("@ ")] + Fees[7..]
  {
  }

  lemma FeesNodes7()
    ensures Fees[7..] == [Named("rate", Number)] + Fees[8..]
  {
  }

  lemma FeesNodes8()
    ensures Fees[8..] == [Lit(" on ")] + Fees[9..]
  {
  }

  lemma FeesNodes9()
    ensures Fees[9..] == [Named("exchange", [Plus(Word)])] + Fees[10..]
  {
  }

  lemma FeesNodes10()
    ensures Fees[10..] == [Lit(" (")] + Fees[11..]
    ensures Fees[11..] == [Named("fee_rate", Decimal)] + Fees[12..]
  {
  }

  lemma FeesNodes12()
    ensures Fees[12..] == [Lit("%)")] + OW
  {
  }

  /** `%)` and the wallet suffix. */
  lemma PercentThenWallet(s: string, q: nat, caps: Captures)
    requires q + 13 < |s|
    requires FoldEq(s[q..q + 2], "%)") && FoldEq(s[q + 2..q + 13], " on wallet ")
    requires forall k :: q + 13 <= k < |s| ==> IsWordChar(s[k])
    ensures var r := MatchSeq(Fees[12..], s, q, caps);
      r != [] && r[0] == Outcome(|s|, caps)
  {
    FeesNodes12();
    WalletSuffix(s, q + 2, caps);
    LitThen("%)", OW, s, q, caps);
  }

  /** ` (` (?P<fee_rate>\d+\.\d+) `%)` and the wallet suffix. */
  lemma FeesFeeRate(s: string, i: nat, p: nat, q: nat, caps: Captures)
    requires FeeRateShape(s, i, p, q)
    ensures var r := MatchSeq(Fees[10..], s, i, caps);
      r != [] && r[0] == Outcome(|s|, caps["fee_rate" := Some(s[i + 2..q])])
  {
    FeesNodes10();
    var o := Outcome(q, caps["fee_rate" := Some(s[i + 2..q])]);
    assert s[q..q + 2][0] == s[q];
    PercentThenWallet(s, q, o.caps);
    NamedDecimal("fee_rate", s, i + 2, p, q, caps);
    HeadThen(Named("fee_rate", Decimal), Fees[12..], s, i + 2, caps, o);
    LitThen(" (", Fees[11..], s, i, caps);
  }

  /** `(?P<exchange>\w+)` from `i`, handing over at `p4` to whatever follows. */
  lemma ExchangeThen(s: string, i: nat, p4: nat, caps: Captures, o: Outcome)
    requires i < p4 < |s| && s[p4] == ' '
    requires forall k :: i <= k < p4 ==> IsWordChar(s[k])
    requires var r := MatchSeq(Fees[10..], s, p4, caps["exchange" := Some(s[i..p4])]);
      r != [] && r[0] == o
    ensures var r := MatchSeq(Fees[9..], s, i, caps); r != [] && r[0] == o
  {
    FeesNodes9();
    NamedRunStep("exchange", Word, s, i, p4 - i, caps);
    HeadThen(Named("exchange", [Plus(Word)]), Fees[10..], s, i, caps,
             Outcome(p4, caps["exchange" := Some(s[i..p4])]));
  }

  /** ` on (?P<exchange>\w+)` and the rest, from `i`. */
  lemma FeesExchange(s: string, i: nat, p4: nat, p5: nat, p6: nat, caps: Captures)
    requires FeeRateShape(s, p4, p5, p6)
    requires i + 4 < p4 && FoldEq(s[i..i + 4], " on ")
    requires forall k :: i + 4 <= k < p4 ==> IsWordChar(s[k])
    ensures var r := MatchSeq(Fees[8..], s, i, caps);
      r != [] && r[0] == Outcome(|s|, caps["exchange" := Some(s[i + 4..p4])]
                                          ["fee_rate" := Some(s[p4 + 2..p6])])
  {
    var c1 := caps["exchange" := Some(s[i + 4..p4])];
    assert s[p4..p4 + 2][0] == s[p4];
    FeesFeeRate(s, p4, p5, p6, c1);
    ExchangeThen(s, i + 4, p4, caps, Outcome(|s|, c1["fee_rate" := Some(s[p4 + 2..p6])]));
    FeesNodes8();
    LitThen(" on ", Fees[9..], s, i, caps);
  }

  /** `(?P<rate>…)` on a whole number and the rest, from `i`. */
  lemma FeesRate(s: string, i: nat, p3: nat, p4: nat, p5: nat, p6: nat, caps: Captures)
    requires RateShape(s, i, p3, p4, p5, p6)
    ensures var r := MatchSeq(Fees[7..], s, i, caps);
      r != [] && r[0] == Outcome(|s|, caps["rate" := Some(s[i..p3])]
                                          ["exchange" := Some(s[p3 + 4..p4])]
                                          ["fee_rate" := Some(s[p4 + 2..p6])])
  {
    FeesNodes7();
    var c1 := caps["rate" := Some(s[i..p3])];
    assert s[p3..p3 + 4][0] == s[p3];
    FeesExchange(s, p3, p4, p5, p6, c1);
    NamedWholeNumber("rate", s, i, p3, caps);
    HeadThen(Named("rate", Number), Fees[8..], s, i, caps, Outcome(p3, c1));
  }

  /** The optional `(pair) ` part is skipped where the text goes on with `@`. */
  lemma PairSkipped(s: string, i: nat, caps: Captures)
    requires i < |s| && s[i] == '@'
    requires MatchSeq(Fees[6..], s, i, caps) != []
    ensures var r := MatchSeq(Fees[5..], s, i, caps);
      r != [] && r[0] == MatchSeq(Fees[6..], s, i, caps)[0]
  {
    FeesNodes5();
    var pairPart := [Lit("("), Named("pair", [Plus(Word)]), Lit(") ")];
    LitMismatch("(", s, i, 0, caps);
    SeqHeadFails(pairPart, s, i, caps);
    SeqHeadFails([Unnamed(pairPart)], s, i, caps);
    OptSkipped([Unnamed(pairPart)], s, i, caps);
    HeadThen(Opt([Unnamed(pairPart)]), Fees[6..], s, i, caps, Outcome(i, caps));
  }

  /** `@ ` and the rest, from `i`. */
  lemma FeesAt(s: string, i: nat, p3: nat, p4: nat, p5: nat, p6: nat, caps: Captures)
    requires RateShape(s, i + 2, p3, p4, p5, p6) && s[i..i + 2] == "@ "
    ensures var r := MatchSeq(Fees[6..], s, i, caps);
      r != [] && r[0] == Outcome(|s|, caps["rate" := Some(s[i + 2..p3])]
                                          ["exchange" := Some(s[p3 + 4..p4])]
                                          ["fee_rate" := Some(s[p4 + 2..p6])])
  {
    FeesNodes6();
    FeesRate(s, i + 2, p3, p4, p5, p6, caps);
    LitThen("@ ", Fees[7..], s, i, caps);
  }

  /** A pattern that starts with a single space hands over to its rest just after one. */
  lemma SpaceThen(p: Pattern, s: string, i: nat, caps: Captures)
    requires p != [] && p[0] == Lit(" ")
    requires i < |s| && s[i] == ' ' && MatchSeq(p[1..], s, i + 1, caps) != []
    ensures var r := MatchSeq(p, s, i, caps);
      r != [] && r[0] == MatchSeq(p[1..], s, i + 1, caps)[0]
  {
    assert s[i..i + 1] == " ";
    LitStep(" ", s, i, caps);
    SeqStep(p, s, i, caps);
  }

  /** ` `, no pair, `@ ` and the rest, from `i`. */
  lemma FeesNoPair(s: string, i: nat, p3: nat, p4: nat, p5: nat, p6: nat, caps: Captures)
    requires RateShape(s, i + 3, p3, p4, p5, p6) && s[i..i + 3] == " @ "
    ensures var r := MatchSeq(Fees[4..], s, i, caps);
      r != [] && r[0] == Outcome(|s|, caps["rate" := Some(s[i + 3..p3])]
                                          ["exchange" := Some(s[p3 + 4..p4])]
                                          ["fee_rate" := Some(s[p4 + 2..p6])])
  {
    FeesNodes4();
    assert s[i] == ' ' && s[i + 1] == '@' && s[i + 1..i + 3] == "@ " by {
      assert s[i..i + 3][1] == s[i + 1] && s[i..i + 3][2] == s[i + 2] && s[i..i + 3][0] == s[i];
    }
    FeesAt(s, i + 1, p3, p4, p5, p6, caps);
    PairSkipped(s, i + 1, caps);
    SpaceThen(Fees[4..], s, i, caps);
  }

  /** ` `, `(?P<currency>\w+)` and the rest without a pair, from the space at `i`. */
  lemma FeesAfterAmount(s: string, i: nat, p2: nat, p3: nat, p4: nat, p5: nat, p6: nat, caps: Captures)
    requires CurrencyShape(s, i + 1, p2, p3, p4, p5, p6) && s[i] == ' '
    ensures var r := MatchSeq(Fees[2..], s, i, caps);
      r != [] && r[0] == Outcome(|s|, caps["currency" := Some(s[i + 1..p2])]
                                          ["rate" := Some(s[p2 + 3..p3])]
                                          ["exchange" := Some(s[p3 + 4..p4])]
                                          ["fee_rate" := Some(s[p4 + 2..p6])])
  {
    FeesNodes2();
    var c1 := caps["currency" := Some(s[i + 1..p2])];
    FeesNoPair(s, p2, p3, p4, p5, p6, c1);
    NamedRunStep("currency", Word, s, i + 1, p2 - i - 1, caps);
    HeadThen(Named("currency", [Plus(Word)]), Fees[4..], s, i + 1, caps, Outcome(p2, c1));
    SpaceThen(Fees[2..], s, i, caps);
  }

  /** `(?P<amount>…)` on a whole number and the rest without a pair, from 17. */
  lemma FeesAmount(s: string, p1: nat, p2: nat, p3: nat, p4: nat, p5: nat, p6: nat, caps: Captures)
    requires FeesLineShape(s, p1, p2, p3, p4, p5, p6)
    ensures var r := MatchSeq(Fees[1..], s, 17, caps);
      r != [] && r[0] == Outcome(|s|, caps["amount" := Some(s[17..p1])]
                                          ["currency" := Some(s[p1 + 1..p2])]
                                          ["rate" := Some(s[p2 + 3..p3])]
                                          ["exchange" := Some(s[p3 + 4..p4])]
                                          ["fee_rate" := Some(s[p4 + 2..p6])])
  {
    FeesNodes1();
    var c1 := caps["amount" := Some(s[17..p1])];
    FeesAfterAmount(s, p1, p2, p3, p4, p5, p6, c1);
    NamedWholeNumber("amount", s, 17, p1, caps);
    assert MatchNode(Fees[1..][0], s, 17, caps)[0] == Outcome(p1, c1);
    SeqStep(Fees[1..], s, 17, caps);
  }

  /** The whole fees pattern on a line without a pair. */
  lemma FeesMatchAt(s: string, p1: nat, p2: nat, p3: nat, p4: nat, p5: nat, p6: nat, caps: Captures)
    requires FeesLineShape(s, p1, p2, p3, p4, p5, p6)
    ensures var r := MatchSeq(Fees, s, 0, caps);
      r != [] && r[0] == Outcome(|s|, caps["amount" := Some(s[17..p1])]
                                          ["currency" := Some(s[p1 + 1..p2])]
                                          ["rate" := Some(s[p2 + 3..p3])]
                                          ["exchange" := Some(s[p3 + 4..p4])]
                                          ["fee_rate" := Some(s[p4 + 2..p6])])
  {
    FeesNodes0();
    FeesAmount(s, p1, p2, p3, p4, p5, p6, caps);
    LitStep("Trading fees for ", s, 0, caps);
    SeqStep(Fees, s, 0, caps);
  }

  lemma FeesGroups()
    ensures PatternGroups(Fees) == {"amount", "currency", "pair", "rate", "exchange", "fee_rate"}
  {
    NumberGroups();
    var pairPart := [Lit("("), Named("pair", [Plus(Word)]), Lit(") ")];
    assert PatternGroups([Plus(Word)]) == {} by { GroupsCons(Plus(Word), []); }
    assert PatternGroups([Unnamed(pairPart)]) == {"pair"} by {
      GroupsCons(Lit(") "), []);
      GroupsCons(Named("pair", [Plus(Word)]), [Lit(") ")]);
      GroupsCons(Lit("("), [Named("pair", [Plus(Word)]), Lit(") ")]);
      GroupsCons(Unnamed(pairPart), []);
    }
    FeesTailGroups();
    assert PatternGroups(Fees[5..]) == {"pair", "rate", "exchange", "fee_rate"};
    assert PatternGroups(Fees[4..]) == {"pair", "rate", "exchange", "fee_rate"};
    assert PatternGroups(Fees[3..]) == {"currency", "pair", "rate", "exchange", "fee_rate"};
    assert PatternGroups(Fees[2..]) == {"currency", "pair", "rate", "exchange", "fee_rate"};
    assert PatternGroups(Fees[1..]) == {"amount", "currency", "pair", "rate", "exchange", "fee_rate"};
  }

  lemma FeesTailGroups()
    ensures PatternGroups(Fees[6..]) == {"rate", "exchange", "fee_rate"}
  {
    WalletSuffixGroups();
    NumberGroups();
    assert PatternGroups([Plus(Word)]) == {} by { GroupsCons(Plus(Word), []); }
    assert Fees[13..] == OW;
    assert PatternGroups(Fees[12..]) == {};
    assert PatternGroups(Fees[11..]) == {"fee_rate"};
    assert PatternGroups(Fees[10..]) == {"fee_rate"};
    assert PatternGroups(Fees[9..]) == {"exchange", "fee_rate"};
    assert PatternGroups(Fees[8..]) == {"exchange", "fee_rate"};
    assert PatternGroups(Fees[7..]) == {"rate", "exchange", "fee_rate"};
  }

  /**
   * A fee line without a pair: `pair` did not take part in the match and is
   * reported as `None`, next to the five groups that did.
   */
  lemma FeesWithoutPair(s: string, p1: nat, p2: nat, p3: nat, p4: nat, p5: nat, p6: nat)
    requires FeesLineShape(s, p1, p2, p3, p4, p5, p6)
    ensures Match(Fees, s)
         == Some(map["amount" := Some(s[17..p1]), "currency" := Some(s[p1 + 1..p2]), "pair" := None,
                     "rate" := Some(s[p2 + 3..p3]), "exchange" := Some(s[p3 + 4..p4]),
                     "fee_rate" := Some(s[p4 + 2..p6])])
  {
    FeesGroups();
    var caps := InitialCaptures(Fees);
    FeesMatchAt(s, p1, p2, p3, p4, p5, p6, caps);
    assert caps["amount" := Some(s[17..p1])]["currency" := Some(s[p1 + 1..p2])]
               ["rate" := Some(s[p2 + 3..p3])]["exchange" := Some(s[p3 + 4..p4])]
               ["fee_rate" := Some(s[p4 + 2..p6])]
        == map["amount" := Some(s[17..p1]), "currency" := Some(s[p1 + 1..p2]), "pair" := None,
               "rate" := Some(s[p2 + 3..p3]), "exchange" := Some(s[p3 + 4..p4]),
               "fee_rate" := Some(s[p4 + 2..p6])];
  }

  /** The 34 entries, the two crypto-withdrawal-fee entries at 22 and 28 with one pattern. */
  lemma CatalogLayout()
    ensures |Bitfinex| == 34
    ensures Bitfinex[22] == Entry("crypto-withdrawal-fee", CryptoWithdrawalFee)
    ensures Bitfinex[28] == Entry("crypto-withdrawal-fees", CryptoWithdrawalFees)
    ensures CryptoWithdrawalFee == CryptoWithdrawalFees
    ensures forall k :: 0 <= k < |Bitfinex| && k != 28 ==> Bitfinex[k].name != "crypto-withdrawal-fees"
  {
  }

  /**
   * The position of the catalog entry whose type name has this length and
   * first character; these two already tell the 34 names apart.
   */
  function EntryIndex(length: nat, first: char): int {
    if length == 8 && first == 'e' then 0  // exchange
    else if length == 10 && first == 'a' then 1  // adjustment
    else if length == 7 && first == 'a' then 2  // airdrop
    else if length == 16 && first == 'a' then 3  // affiliate-rebate
    else if length == 8 && first == 's' then 4  // snapshot
    else if length == 16 && first == 't' then 5  // token-redemption
    else if length == 6 && first == 'h' then 6  // hacked
    else if length == 11 && first == 'u' then 7  // used-margin
    else if length == 13 && first == 'u' then 8  // unused-margin
    else if length == 22 && first == 'm' then 9  // margin-funding-payment
    else if length == 20 && first == 'm' then 10  // margin-funding-event
    else if length == 19 && first == 'm' then 11  // margin-funding-cost
    else if length == 13 && first == 'p' then 12  // position-cost
    else if length == 5 && first == 'c' then 13  // close
    else if length == 7 && first == 'c' then 14  // claimed
    else if length == 9 && first == 'c' then 15  // claim-fee
    else if length == 13 && first == 'c' then 16  // claimed-no-id
    else if length == 4 && first == 'f' then 17  // fees
    else if length == 11 && first == 'c' then 18  // claimed-fee
    else if length == 8 && first == 'i' then 19  // interest
    else if length == 10 && first == 's' then 20  // settlement
    else if length == 19 && first == 'p' then 21  // position-settlement
    else if length == 21 && first == 'c' then 22  // crypto-withdrawal-fee
    else if length == 15 && first == 'w' then 23  // wire-withdrawal
    else if length == 7 && first == 'd' then 24  // deposit
    else if length == 11 && first == 'd' then 25  // deposit-fee
    else if length == 17 && first == 'c' then 26  // crypto-withdrawal
    else if length == 14 && first == 'r' then 27  // referral-bonus
    else if length == 22 && first == 'c' then 28  // crypto-withdrawal-fees
    else if length == 19 && first == 'c' then 29  // canceled-withdrawal
    else if length == 9 && first == 's' then 30  // swap-fees
    else if length == 8 && first == 't' then 31  // transfer
    else if length == 20 && first == 't' then 32  // transfer-sub-account
    else if length == 14 && first == 't' then 33  // trading-rebate
    else -1
  }

  /** Every entry's name leads back to the entry's own position. */
  lemma EntryIndexInverts(k: nat)
    requires k < |Bitfinex|
    ensures |Bitfinex[k].name| > 0 && EntryIndex(|Bitfinex[k].name|, Bitfinex[k].name[0]) == k
  {
    if k < 17 {
      EntryIndexInvertsBelow(k);
    } else {
      EntryIndexInvertsFrom(k);
    }
  }

  lemma EntryIndexInvertsBelow(k: nat)
    requires k < 17
    ensures |Bitfinex[k].name| > 0 && EntryIndex(|Bitfinex[k].name|, Bitfinex[k].name[0]) == k
  {
  }

  lemma EntryIndexInvertsFrom(k: nat)
    requires 17 <= k < |Bitfinex|
    ensures |Bitfinex[k].name| > 0 && EntryIndex(|Bitfinex[k].name|, Bitfinex[k].name[0]) == k
  {
  }

  /** Like the keys of the dictionary literal, the 34 type names are pairwise distinct. */
  lemma CatalogNamesDistinct()
    ensures forall i, j :: 0 <= i < j < |Bitfinex| ==> Bitfinex[i].name != Bitfinex[j].name
  {
    forall i, j | 0 <= i < j < |Bitfinex|
      ensures Bitfinex[i].name != Bitfinex[j].name
    {
      EntryIndexInverts(i);
      EntryIndexInverts(j);
    }
  }


  /**
   * `crypto-withdrawal-fees` is never the type of a classified description:
   * the earlier `crypto-withdrawal-fee` entry has the same pattern and wins
   * whenever it would match.
   */
  lemma CryptoWithdrawalFeesNeverSelected(d: string)
    ensures FirstMatch(Bitfinex, d) != Some(28)
    ensures Classify(Bitfinex, d).Matched? ==> Classify(Bitfinex, d).name != "crypto-withdrawal-fees"
  {
    CatalogLayout();
    ShadowedEntryNeverWins(Bitfinex, 22, 28, d);
    var r := Classify(Bitfinex, d);
    if r.Matched? {
      var k :| 0 <= k < |Bitfinex| && IsWinner(Bitfinex, k, d, r);
      FirstMatchCharacterized(Bitfinex, d, k);
    }
  }
}
