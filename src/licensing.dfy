/**
 * The central licensing authority of Phase 21 (`js/soc_defense.js`): a full audit scores five
 * readiness checks, weighs them into a readiness score, classifies the institution, and
 * issues a banking licence when the score reaches 75; a licence can be revoked.
 *
 * Each `Math.random()` draw and the `Date.now()` clock are parameters.
 */
module LicensingAuthority {
  import opened JsText

  const Tier1: string := "Tier 1 Systemic Institution"
  const Tier2: string := "Tier 2 Commercial Bank"
  const RestrictedEntity: string := "Restricted Banking Entity"
  const ProvisionalPending: string := "Provisional Approval Pending"

  const LicenceThreshold: real := 75.0
  const IdPrefix: string := "NBC-"

  /** `phase21State` without its storage key. */
  datatype Charter = Charter(licensed: bool, licenseId: Option<string>, score: real, rating: Option<string>)

  const Initial: Charter := Charter(false, None, 0.0, None)

  /** `determineClassification(score)` */
  function Classify(score: real): (r: string)
    ensures r == Tier1 <==> score >= 90.0
    ensures r == Tier2 <==> 80.0 <= score < 90.0
    ensures r == RestrictedEntity <==> 70.0 <= score < 80.0
    ensures r == ProvisionalPending <==> score < 70.0
  {
    if score >= 90.0 then Tier1
    else if score >= 80.0 then Tier2
    else if score >= 70.0 then RestrictedEntity
    else ProvisionalPending
  }

  /** `scoreCheck(id)` for the draw `draw` of `Math.random()`. */
  function ScoreCheck(draw: real): (r: int)
    requires 0.0 <= draw < 1.0
    ensures 70 <= r <= 99
  {
    RandomInt(draw, 30, 70)
  }

  /** The readiness score: checks weighted 0.2, 0.2, 0.25, 0.15 and 0.2. */
  function Weighted(tech: real, risk: real, supervision: real, markets: real, cbdc: real): real {
    tech * 0.2 + risk * 0.2 + supervision * 0.25 + markets * 0.15 + cbdc * 0.2
  }

  /** The weights sum to 1, so the score lies between the lowest and the highest check. */
  lemma WeightedBetween(tech: real, risk: real, supervision: real, markets: real, cbdc: real, lo: real, hi: real)
    requires lo <= tech <= hi && lo <= risk <= hi && lo <= supervision <= hi && lo <= markets <= hi && lo <= cbdc <= hi
    ensures lo <= Weighted(tech, risk, supervision, markets, cbdc) <= hi
  {
  }

  /** A truthy licence id. */
  predicate HasId(c: Charter) {
    c.licenseId.Some? && c.licenseId.value != ""
  }

  /** The id minted at time `now`: `"NBC-" + Date.now().toString().slice(-8)`. */
  function NewLicenseId(now: nat): string {
    IdPrefix + LastChars(NatToDecimal(now), 8)
  }

  /** `issueLicense()` at time `now`. */
  function Issue(c: Charter, now: nat): (r: Charter)
    ensures r.licensed && HasId(r)
  {
    if HasId(c) then c.(licensed := true) else c.(licensed := true, licenseId := Some(NewLicenseId(now)))
  }

  /** `denyLicense()` only hides the seal and alerts: the state is untouched. */
  function Deny(c: Charter): Charter {
    c
  }

  /** `revokeLicense()` */
  function Revoke(c: Charter): Charter {
    if !c.licensed then c else c.(licensed := false, licenseId := None)
  }

  /** `runFullAudit()` with the five checks' draws, at time `now`. */
  function Audit(c: Charter, tech: real, risk: real, supervision: real, markets: real, cbdc: real, now: nat): Charter
    requires 0.0 <= tech < 1.0 && 0.0 <= risk < 1.0 && 0.0 <= supervision < 1.0 && 0.0 <= markets < 1.0 && 0.0 <= cbdc < 1.0
  {
    var total := Weighted(ScoreCheck(tech) as real, ScoreCheck(risk) as real, ScoreCheck(supervision) as real,
                          ScoreCheck(markets) as real, ScoreCheck(cbdc) as real);
    var scored := c.(score := total, rating := Some(Classify(total)));
    if total >= LicenceThreshold then Issue(scored, now) else Deny(scored)
  }

  // ---------------------------------------------------------------------------------------
  // Properties

  /**
   * An audit's score lies in [70, 99] and is classified; a score of at least 75 leaves the
   * institution licensed, a lower one leaves the licence as it was: a licence already held
   * survives a failed audit.
   */
  lemma AuditOutcome(c: Charter, tech: real, risk: real, supervision: real, markets: real, cbdc: real, now: nat)
    requires 0.0 <= tech < 1.0 && 0.0 <= risk < 1.0 && 0.0 <= supervision < 1.0 && 0.0 <= markets < 1.0 && 0.0 <= cbdc < 1.0
    ensures var r := Audit(c, tech, risk, supervision, markets, cbdc, now);
            && 70.0 <= r.score <= 99.0
            && r.rating == Some(Classify(r.score))
            && r.rating != Some(ProvisionalPending)
            && (r.score >= 75.0 ==> r.licensed && HasId(r))
            && (r.score < 75.0 ==> r.licensed == c.licensed && r.licenseId == c.licenseId)
  {
    WeightedBetween(ScoreCheck(tech) as real, ScoreCheck(risk) as real, ScoreCheck(supervision) as real,
                    ScoreCheck(markets) as real, ScoreCheck(cbdc) as real, 70.0, 99.0);
  }

  /** Issuing keeps a licence id already held and mints one only when there is none. */
  lemma IssueKeepsId(c: Charter, now: nat)
    ensures HasId(c) ==> Issue(c, now).licenseId == c.licenseId
    ensures !HasId(c) ==> Issue(c, now).licenseId == Some(NewLicenseId(now))
    ensures Issue(c, now).score == c.score && Issue(c, now).rating == c.rating
  {
  }

  /** Revoking an unlicensed charter does nothing; otherwise it drops the licence and its id. */
  lemma RevokeEffect(c: Charter)
    ensures !c.licensed ==> Revoke(c) == c
    ensures c.licensed ==> !Revoke(c).licensed && Revoke(c).licenseId.None? &&
                           Revoke(c).score == c.score && Revoke(c).rating == c.rating
  {
  }

  /** The licence invariant: the institution is licensed exactly when it holds a licence id. */
  ghost predicate Consistent(c: Charter) {
    (c.licensed <==> c.licenseId.Some?) && (c.licenseId.Some? ==> c.licenseId.value != "")
  }

  lemma OperationsKeepConsistent(c: Charter, tech: real, risk: real, supervision: real, markets: real, cbdc: real, now: nat)
    requires Consistent(c)
    requires 0.0 <= tech < 1.0 && 0.0 <= risk < 1.0 && 0.0 <= supervision < 1.0 && 0.0 <= markets < 1.0 && 0.0 <= cbdc < 1.0
    ensures Consistent(Issue(c, now)) && Consistent(Deny(c)) && Consistent(Revoke(c))
    ensures Consistent(Audit(c, tech, risk, supervision, markets, cbdc, now))
  {
  }

  /** Once licensed, re-auditing never changes the licence id, whatever the scores. */
  lemma LicensedIdStable(c: Charter, tech: real, risk: real, supervision: real, markets: real, cbdc: real, now: nat)
    requires Consistent(c) && c.licensed
    requires 0.0 <= tech < 1.0 && 0.0 <= risk < 1.0 && 0.0 <= supervision < 1.0 && 0.0 <= markets < 1.0 && 0.0 <= cbdc < 1.0
    ensures Audit(c, tech, risk, supervision, markets, cbdc, now).licensed
    ensures Audit(c, tech, risk, supervision, markets, cbdc, now).licenseId == c.licenseId
  {
  }

  /** The last eight digits of a number's decimal rendering read back as the number modulo 10^8. */
  lemma {:induction false} DecimalSuffix(n: nat, k: nat)
    requires |NatToDecimal(n)| >= k
    ensures var t := LastChars(NatToDecimal(n), k);
            (forall i :: 0 <= i < |t| ==> IsDigitChar(t[i])) && DecimalValue(t) == n % Pow10(k)
  {
    if k == 0 {
      assert LastChars(NatToDecimal(n), k) == [] && Pow10(k) == 1;
    } else if n < 10 {
      assert LastChars(NatToDecimal(n), k) == NatToDecimal(n) && Pow10(k) == 10;
      DecimalRoundTrip(n);
    } else {
      DecimalSuffix(n / 10, k - 1);
      LastDigitSplit(n, k);
      ModSplit(n, Pow10(k - 1));
    }
  }

  /** Dropping the last digit of `n`'s rendering leaves the rendering of `n / 10`, and the suffixes follow suit. */
  lemma LastDigitSplit(n: nat, k: nat)
    requires n >= 10 && 1 <= k <= |NatToDecimal(n)|
    requires var t' := LastChars(NatToDecimal(n / 10), k - 1);
             forall i :: 0 <= i < |t'| ==> IsDigitChar(t'[i])
    ensures var t := LastChars(NatToDecimal(n), k);
            var t' := LastChars(NatToDecimal(n / 10), k - 1);
            && (forall i :: 0 <= i < |t| ==> IsDigitChar(t[i]))
            && DecimalValue(t) == 10 * DecimalValue(t') + n % 10
            && Pow10(k) == 10 * Pow10(k - 1)
  {
    var d := DigitChar(n % 10);
    assert NatToDecimal(n) == NatToDecimal(n / 10) + [d];
    SuffixSnoc(NatToDecimal(n / 10), d, k);
  }

  /** The last `k` characters of `s + [d]` are the last `k - 1` of `s` followed by `d`, and read back accordingly. */
  lemma SuffixSnoc(s: string, d: char, k: nat)
    requires 1 <= k <= |s| + 1 && IsDigitChar(d)
    requires var t' := LastChars(s, k - 1);
             forall i :: 0 <= i < |t'| ==> IsDigitChar(t'[i])
    ensures var t := LastChars(s + [d], k);
            var t' := LastChars(s, k - 1);
            && t == t' + [d]
            && (forall i :: 0 <= i < |t| ==> IsDigitChar(t[i]))
            && DecimalValue(t) == 10 * DecimalValue(t') + DigitValue(d)
  {
    var t := LastChars(s + [d], k);
    var t' := LastChars(s, k - 1);
    assert t == t' + [d];
    assert t[..|t| - 1] == t';
  }

  /** `10 * ((n / 10) % p) + n % 10 == n % (10 * p)` */
  lemma ModSplit(n: nat, p: nat)
    requires p >= 1
    ensures 10 * ((n / 10) % p) + n % 10 == n % (10 * p)
  {
    var a, r := n / 10, n % 10;
    var q, m := a / p, a % p;
    assert a == q * p + m;
    assert q * (10 * p) == 10 * (q * p);
    DivModUnique(n, 10 * p, q, 10 * m + r);
  }

  /** Euclidean division is unique: a quotient and remainder in range are `/` and `%`. */
  lemma DivModUnique(n: int, d: int, q: int, r: int)
    requires d > 0 && n == q * d + r && 0 <= r < d
    ensures n % d == r
  {
    var q0, r0 := n / d, n % d;
    assert (q - q0) * d == r0 - r;
    if q - q0 >= 1 {
      MulAtLeast(q - q0, d);
    } else if q - q0 <= -1 {
      assert (q0 - q) * d == r - r0;
      MulAtLeast(q0 - q, d);
    }
  }

  lemma MulAtLeast(x: int, d: int)
    requires x >= 1 && d > 0
    ensures x * d >= d
  {
    assert x * d - d == (x - 1) * d;
  }

  /**
   * A new licence id for a timestamp of at least eight digits is `NBC-` followed by eight
   * digits that read back as the timestamp modulo 10^8.
   */
  lemma NewIdShape(now: nat)
    requires now >= 10000000
    ensures var id := NewLicenseId(now);
            var digits := id[|IdPrefix|..];
            && |id| == 12 && StartsWith(id, IdPrefix)
            && (forall i :: 0 <= i < |digits| ==> IsDigitChar(digits[i]))
            && DecimalValue(digits) == now % 100000000
  {
    var s := NatToDecimal(now);
    assert |s| >= 8 by {
      DigitCount(now);
    }
    DecimalSuffix(now, 8);
    assert Pow10(8) == 100000000;
    var id := NewLicenseId(now);
    assert id[|IdPrefix|..] == LastChars(s, 8);
  }

  /** A number of at least 10^7 has at least eight decimal digits. */
  lemma {:induction false} DigitCount(n: nat)
    requires n >= 10000000
    ensures |NatToDecimal(n)| >= 8
  {
    var k := 8;
    while n >= Pow10(k)
      invariant k >= 8 && Pow10(k - 1) <= n
      decreases n - Pow10(k)
    {
      PowMonotone(k, k + 1);
      assert Pow10(k + 1) == 10 * Pow10(k);
      k := k + 1;
    }
    assert Pow10(7) == 10000000;
    DecimalLength(n, k);
  }

  // ---------------------------------------------------------------------------------------
  // The authority over `phase21State`

  class Authority {
    var licensed: bool
    var licenseId: Option<string>
    var score: real
    var rating: Option<string>

    function Snapshot(): Charter
      reads this
    {
      Charter(licensed, licenseId, score, rating)
    }

    ghost predicate Valid()
      reads this
    {
      Consistent(Snapshot())
    }

    constructor ()
      ensures Valid() && Snapshot() == Initial
    {
      licensed := false;
      licenseId := None;
      score := 0.0;
      rating := None;
    }

    /** `runFullAudit()`; returns whether the licence branch was taken. */
    method RunFullAudit(tech: real, risk: real, supervision: real, markets: real, cbdc: real, now: nat)
      returns (issued: bool)
      requires Valid()
      requires 0.0 <= tech < 1.0 && 0.0 <= risk < 1.0 && 0.0 <= supervision < 1.0 && 0.0 <= markets < 1.0 && 0.0 <= cbdc < 1.0
      modifies this
      ensures Valid() && Snapshot() == Audit(old(Snapshot()), tech, risk, supervision, markets, cbdc, now)
      ensures issued <==> score >= LicenceThreshold
    {
      OperationsKeepConsistent(Snapshot(), tech, risk, supervision, markets, cbdc, now);
      var totalScore := Weighted(ScoreCheck(tech) as real, ScoreCheck(risk) as real, ScoreCheck(supervision) as real,
                                 ScoreCheck(markets) as real, ScoreCheck(cbdc) as real);
      score := totalScore;
      rating := Some(Classify(totalScore));
      if totalScore >= LicenceThreshold {
        IssueLicense(now);
        issued := true;
      } else {
        DenyLicense();
        issued := false;
      }
    }

    method IssueLicense(now: nat)
      requires Valid()
      modifies this
      ensures Valid() && Snapshot() == Issue(old(Snapshot()), now)
    {
      if licenseId.None? || licenseId.value == "" {
        licenseId := Some(IdPrefix + LastChars(NatToDecimal(now), 8));
      }
      licensed := true;
    }

    /** `denyLicense()` hides the seal and alerts; it writes no state. */
    method DenyLicense()
    {
    }

    method RevokeLicense()
      requires Valid()
      modifies this
      ensures Valid() && Snapshot() == Revoke(old(Snapshot()))
    {
      if !licensed {
        return;
      }
      licensed := false;
      licenseId := None;
    }
  }
}
