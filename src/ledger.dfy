/**
 * The CBDC wallet of Phase 19 (`bank-main/js/phase19.js`): USD tokens are minted into the
 * wallet, burnt out of it, or converted wholesale to KHR at the fixed rate 4100, and a KHQR
 * payload names the current KHR balance.
 *
 * Amounts are exact reals; the amount typed into the form is `parseFloat`'s result, `None`
 * standing for NaN. The clock and the text rendering of the KHR balance are parameters.
 */
module CbdcLedger {
  import opened JsText

  const FxRate: real := 4100.0

  datatype Wallet = Wallet(walletUSD: real, walletKHR: real, totalMinted: real)

  const Initial: Wallet := Wallet(0.0, 0.0, 0.0)

  /** `!amt || amt <= 0`: NaN, zero and negative amounts are refused. */
  predicate Refused(amount: Option<real>) {
    amount.None? || amount.value <= 0.0
  }

  /** `mintCBDC()`: returns the wallet and whether the mint happened. */
  function Mint(w: Wallet, amount: Option<real>): (Wallet, bool)
  {
    if Refused(amount) then (w, false)
    else (w.(walletUSD := w.walletUSD + amount.value, totalMinted := w.totalMinted + amount.value), true)
  }

  /** `burnCBDC()`: refused for a refused amount or one above the USD balance. */
  function Burn(w: Wallet, amount: Option<real>): (Wallet, bool)
  {
    if Refused(amount) || amount.value > w.walletUSD then (w, false)
    else (w.(walletUSD := w.walletUSD - amount.value), true)
  }

  /** `convertFX()`: the whole USD balance becomes KHR. */
  function Convert(w: Wallet): (Wallet, bool)
  {
    if w.walletUSD <= 0.0 then (w, false)
    else (w.(walletKHR := w.walletKHR + w.walletUSD * FxRate, walletUSD := 0.0), true)
  }

  const PayloadPrefix: string := "BAKONG|KHMERBANK|"

  /** `generateKHQR()`'s payload at time `now`, with `khrText` the rendering of `walletKHR`. */
  function KhqrPayload(now: nat, khrText: string): string {
    PayloadPrefix + NatToDecimal(now) + "|" + khrText
  }

  // ---------------------------------------------------------------------------------------
  // Properties of single operations

  /** A positive mint raises the balance and the minted total by the amount; any other amount changes nothing. */
  lemma MintEffect(w: Wallet, amount: Option<real>)
    ensures var (w', ok) := Mint(w, amount);
            && (ok <==> amount.Some? && amount.value > 0.0)
            && (ok ==> w'.walletUSD == w.walletUSD + amount.value &&
                       w'.totalMinted == w.totalMinted + amount.value && w'.walletKHR == w.walletKHR)
            && (!ok ==> w' == w)
  {
  }

  /** A burn happens exactly for a positive amount within the balance, and changes only the balance. */
  lemma BurnEffect(w: Wallet, amount: Option<real>)
    ensures var (w', ok) := Burn(w, amount);
            && (ok <==> amount.Some? && 0.0 < amount.value <= w.walletUSD)
            && (ok ==> w'.walletUSD == w.walletUSD - amount.value && w'.walletUSD >= 0.0 &&
                       w'.totalMinted == w.totalMinted && w'.walletKHR == w.walletKHR)
            && (!ok ==> w' == w)
  {
  }

  /** A conversion needs a positive balance; it moves all of it to KHR at 4100 per dollar. */
  lemma ConvertEffect(w: Wallet)
    ensures var (w', ok) := Convert(w);
            && (ok <==> w.walletUSD > 0.0)
            && (ok ==> w'.walletUSD == 0.0 && w'.walletKHR == w.walletKHR + 4100.0 * w.walletUSD &&
                       w'.totalMinted == w.totalMinted)
            && (!ok ==> w' == w)
  {
  }

  // ---------------------------------------------------------------------------------------
  // Runs of operations

  datatype Op = MintOp(amount: Option<real>) | BurnOp(amount: Option<real>) | ConvertOp

  function Apply(w: Wallet, op: Op): Wallet {
    match op
    case MintOp(a) => Mint(w, a).0
    case BurnOp(a) => Burn(w, a).0
    case ConvertOp => Convert(w).0
  }

  function Run(w: Wallet, ops: seq<Op>): Wallet
  {
    if ops == [] then w else Apply(Run(w, ops[..|ops| - 1]), ops[|ops| - 1])
  }

  /** The ledger invariant: the balance is never negative nor above what was minted, and KHR is never negative. */
  ghost predicate Sound(w: Wallet) {
    0.0 <= w.walletUSD <= w.totalMinted && w.walletKHR >= 0.0
  }

  lemma ApplyKeepsSound(w: Wallet, op: Op)
    requires Sound(w)
    ensures Sound(Apply(w, op))
    ensures Apply(w, op).walletKHR >= w.walletKHR
    ensures Apply(w, op).totalMinted >= w.totalMinted
  {
  }

  /**
   * From the zero wallet, every sequence of mints, burns and conversions keeps the balance
   * between 0 and the minted total, and the KHR balance only grows.
   */
  lemma {:induction false} RunKeepsSound(ops: seq<Op>)
    ensures Sound(Run(Initial, ops))
    ensures forall k :: 0 <= k <= |ops| ==> Run(Initial, ops[..k]).walletKHR <= Run(Initial, ops).walletKHR
  {
    if ops != [] {
      var init := ops[..|ops| - 1];
      RunKeepsSound(init);
      ApplyKeepsSound(Run(Initial, init), ops[|ops| - 1]);
      forall k | 0 <= k <= |ops|
        ensures Run(Initial, ops[..k]).walletKHR <= Run(Initial, ops).walletKHR
      {
        if k < |ops| {
          assert ops[..k] == init[..k];
        } else {
          assert ops[..k] == ops;
        }
      }
    } else {
      assert ops[..0] == ops;
    }
  }

  // ---------------------------------------------------------------------------------------
  // The KHQR payload

  /**
   * The payload reads back as its four fields, `BAKONG`, `KHMERBANK`, the time and the KHR
   * text, as long as that text holds no `|`; the time field's digits give back the time.
   */
  lemma KhqrFields(now: nat, khrText: string)
    requires '|' !in khrText
    ensures Split(KhqrPayload(now, khrText), '|') == ["BAKONG", "KHMERBANK", NatToDecimal(now), khrText]
    ensures DecimalValue(NatToDecimal(now)) == now
  {
    var t := NatToDecimal(now);
    DigitsHaveNoBar(t);
    SplitNoSeparator(khrText, '|');
    SplitField(t, khrText, '|');
    PayloadShape(now, khrText);
    SplitField("KHMERBANK", t + ['|'] + khrText, '|');
    SplitField("BAKONG", "KHMERBANK" + ['|'] + (t + ['|'] + khrText), '|');
    DecimalRoundTrip(now);
  }

  lemma DigitsHaveNoBar(t: string)
    requires forall i :: 0 <= i < |t| ==> IsDigitChar(t[i])
    ensures '|' !in t
  {
    forall i | 0 <= i < |t| ensures t[i] != '|' {
      assert IsDigitChar(t[i]);
    }
  }

  /** The payload as its four fields joined by bars. */
  lemma PayloadShape(now: nat, khrText: string)
    ensures KhqrPayload(now, khrText)
         == "BAKONG" + ['|'] + ("KHMERBANK" + ['|'] + (NatToDecimal(now) + ['|'] + khrText))
  {
  }

  /** The id shown on screen, `payload.slice(0, 18)`, is the fixed prefix and the first digit of the time. */
  lemma KhqrShownId(now: nat, khrText: string)
    ensures KhqrPayload(now, khrText)[..18] == PayloadPrefix + [NatToDecimal(now)[0]]
  {
  }

  // ---------------------------------------------------------------------------------------
  // The ledger over `phase19State`

  class Ledger {
    var walletUSD: real
    var walletKHR: real
    var totalMinted: real

    function Snapshot(): Wallet
      reads this
    {
      Wallet(walletUSD, walletKHR, totalMinted)
    }

    ghost predicate Valid()
      reads this
    {
      Sound(Snapshot())
    }

    constructor ()
      ensures Valid() && Snapshot() == Initial
    {
      walletUSD := 0.0;
      walletKHR := 0.0;
      totalMinted := 0.0;
    }

    method MintCBDC(amount: Option<real>) returns (minted: bool)
      requires Valid()
      modifies this
      ensures Valid() && (Snapshot(), minted) == Mint(old(Snapshot()), amount)
      ensures walletKHR == old(walletKHR)
    {
      if amount.None? || amount.value <= 0.0 {
        return false;
      }
      walletUSD := walletUSD + amount.value;
      totalMinted := totalMinted + amount.value;
      return true;
    }

    method BurnCBDC(amount: Option<real>) returns (burnt: bool)
      requires Valid()
      modifies this
      ensures Valid() && (Snapshot(), burnt) == Burn(old(Snapshot()), amount)
      ensures walletKHR == old(walletKHR) && totalMinted == old(totalMinted)
    {
      if amount.None? || amount.value <= 0.0 || amount.value > walletUSD {
        return false;
      }
      walletUSD := walletUSD - amount.value;
      return true;
    }

    method ConvertFX() returns (converted: bool)
      requires Valid()
      modifies this
      ensures Valid() && (Snapshot(), converted) == Convert(old(Snapshot()))
      ensures walletKHR >= old(walletKHR)
    {
      if walletUSD <= 0.0 {
        return false;
      }
      var amount := walletUSD * FxRate;
      walletKHR := walletKHR + amount;
      walletUSD := 0.0;
      return true;
    }

    method GenerateKHQR(now: nat, khrText: string) returns (payload: string)
      ensures payload == KhqrPayload(now, khrText)
      ensures StartsWith(payload, PayloadPrefix)
    {
      payload := PayloadPrefix + NatToDecimal(now) + "|" + khrText;
    }
  }
}
