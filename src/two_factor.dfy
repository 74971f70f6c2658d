/**
 * The second-factor challenge engine (`js/security_2fa.js`): a 6-digit one-time code is
 * issued, only the lowercase-hex rendering of its SHA-256 digest is kept, the code expires
 * after 60 seconds, three wrong codes lock the engine for 60 seconds, and clicks on the
 * protected phases are held back until a code has been verified.
 *
 * SHA-256 (with the UTF-8 encoding before it) is the parameter `sha`, any function from
 * strings to byte strings; properties that need it to separate codes require it to be injective.
 * The open modal is modelled by the continuation its Verify button is bound to.
 */
module TwoFactor {
  import opened JsText
  import AuthController

  const MaxAttempts: int := 3
  const TtlMs: int := 60000
  const LockMs: int := 60000
  const ProtectedPhases: seq<string> := ["Phase 14", "Phase 16"]

  type Byte = b: int | 0 <= b < 256

  // ---------------------------------------------------------------------------------------
  // Lowercase base-16 rendering of the digest (section 8 of RFC 4648, lower-case alphabet)

  predicate IsHexDigit(c: char) {
    '0' <= c <= '9' || 'a' <= c <= 'f'
  }

  function HexValue(c: char): (n: nat)
    requires IsHexDigit(c)
    ensures n < 16
  {
    if c <= '9' then c as int - '0' as int else c as int - 'a' as int + 10
  }

  function HexDigit(n: nat): (c: char)
    requires n < 16
    ensures IsHexDigit(c) && HexValue(c) == n
  {
    if n < 10 then ('0' as int + n) as char else ('a' as int + n - 10) as char
  }

  /** `b.toString(16).padStart(2, "0")`: high nibble first. */
  function HexByte(b: Byte): (r: string)
    ensures |r| == 2 && IsHexDigit(r[0]) && IsHexDigit(r[1])
    ensures 16 * HexValue(r[0]) + HexValue(r[1]) == b
  {
    [HexDigit(b / 16), HexDigit(b % 16)]
  }

  /** The byte-to-hex map and join of `hashValue`. */
  function HexEncode(d: seq<Byte>): (r: string)
    ensures |r| == 2 * |d|
    ensures forall i :: 0 <= i < |r| ==> IsHexDigit(r[i])
  {
    if d == [] then "" else HexByte(d[0]) + HexEncode(d[1..])
  }

  /** Reads a lowercase hex string back into bytes: the partner of `HexEncode`. */
  function HexDecode(s: string): (d: seq<Byte>)
    requires |s| % 2 == 0 && forall i :: 0 <= i < |s| ==> IsHexDigit(s[i])
    ensures |d| == |s| / 2
  {
    if s == [] then [] else [16 * HexValue(s[0]) + HexValue(s[1])] + HexDecode(s[2..])
  }

  lemma {:induction false} HexRoundTrip(d: seq<Byte>)
    ensures HexDecode(HexEncode(d)) == d
  {
    if d != [] {
      var s := HexEncode(d);
      assert s[2..] == HexEncode(d[1..]);
      HexRoundTrip(d[1..]);
    }
  }

  /** Distinct digests have distinct renderings. */
  lemma HexInjective(a: seq<Byte>, b: seq<Byte>)
    ensures HexEncode(a) == HexEncode(b) <==> a == b
  {
    if HexEncode(a) == HexEncode(b) {
      HexRoundTrip(a);
      HexRoundTrip(b);
    }
  }

  /** `hashValue(value)` */
  function HashValue(sha: string -> seq<Byte>, value: string): (r: string)
    ensures |r| == 2 * |sha(value)|
    ensures forall i :: 0 <= i < |r| ==> IsHexDigit(r[i])
  {
    HexEncode(sha(value))
  }

  ghost predicate Injective(sha: string -> seq<Byte>) {
    forall a, b :: sha(a) == sha(b) ==> a == b
  }

  /** With an injective digest, two stored hashes are equal exactly when the codes are. */
  lemma HashesMatchIffCodesMatch(sha: string -> seq<Byte>, a: string, b: string)
    requires Injective(sha)
    ensures HashValue(sha, a) == HashValue(sha, b) <==> a == b
  {
    HexInjective(sha(a), sha(b));
  }

  /** A 32-byte digest is stored as 64 lowercase hex characters. */
  lemma DigestIs64Chars(sha: string -> seq<Byte>, value: string)
    requires |sha(value)| == 32
    ensures |HashValue(sha, value)| == 64
  {
  }

  // ---------------------------------------------------------------------------------------
  // Code generation

  /** `generateOTP()`: `Math.floor(100000 + draw * 900000)` in decimal, exactly six digits. */
  function GenerateOTP(draw: real): (otp: string)
    requires 0.0 <= draw < 1.0
    ensures |otp| == 6 && forall i :: 0 <= i < 6 ==> IsDigitChar(otp[i])
    ensures 100000 <= DecimalValue(otp) <= 999999
  {
    var n := Floor(100000.0 + draw * 900000.0);
    assert 100000 <= n <= 999999;
    assert Pow10(5) == 100000 && Pow10(6) == 1000000;
    DecimalLength(n, 6);
    DecimalRoundTrip(n);
    NatToDecimal(n)
  }

  // ---------------------------------------------------------------------------------------
  // The engine state

  /** What runs after a successful verification. */
  datatype Continuation = FinishLogin(user: AuthController.User) | RenderProtected(phase: string)

  /** `twoFAState` plus the open modal, recorded by the continuation it was opened with. */
  datatype State = State(otpHash: Option<string>, expiresAt: Option<int>, attempts: int,
                         lockUntil: Option<int>, modal: Option<Continuation>)

  const Initial: State := State(None, None, 0, None, None)

  /** `isLocked()`: `lockUntil` is truthy and has not been reached yet. */
  predicate Locked(st: State, now: int) {
    st.lockUntil.Some? && st.lockUntil.value != 0 && now < st.lockUntil.value
  }

  /** `Date.now() > expiresAt`; a null expiry compares as 0. */
  predicate Expired(st: State, now: int) {
    now > if st.expiresAt.Some? then st.expiresAt.value else 0
  }

  /** `show2FAModal(onSuccess)`: returns early, keeping the open modal, when one is open. */
  function WithModal(st: State, onSuccess: Continuation): (r: State)
    ensures r.modal.Some?
    ensures st.modal.Some? ==> r == st
  {
    if st.modal.Some? then st else st.(modal := Some(onSuccess))
  }

  datatype TriggerOutcome = TriggerLocked | Challenged(code: string)

  /** `trigger2FA(onSuccess)`; `Challenged` carries the code sent to the user. */
  function TriggerStep(st: State, onSuccess: Continuation, now: int, draw: real,
                       sha: string -> seq<Byte>): (State, TriggerOutcome)
    requires 0.0 <= draw < 1.0
  {
    if Locked(st, now) then (st, TriggerLocked)
    else
      var otp := GenerateOTP(draw);
      var st1 := st.(otpHash := Some(HashValue(sha, otp)), expiresAt := Some(now + TtlMs), attempts := 0);
      (WithModal(st1, onSuccess), Challenged(otp))
  }

  datatype ValidateOutcome = CodeExpired | Verified(onSuccess: Continuation) | InvalidCode(attempts: int) | LockedOut

  /** `validateOTP(input, onSuccess)`. */
  function ValidateStep(st: State, input: string, onSuccess: Continuation, now: int,
                        sha: string -> seq<Byte>): (State, ValidateOutcome)
  {
    if Expired(st, now) then (st, CodeExpired)
    else if st.otpHash == Some(HashValue(sha, input)) then (st.(modal := None), Verified(onSuccess))
    else
      var attempts := st.attempts + 1;
      if attempts >= MaxAttempts then (st.(attempts := attempts, lockUntil := Some(now + LockMs)), LockedOut)
      else (st.(attempts := attempts), InvalidCode(attempts))
  }

  /** The Verify button: the trimmed input is validated against the modal's continuation. */
  function PressVerifyStep(st: State, raw: string, now: int, sha: string -> seq<Byte>): (State, Option<ValidateOutcome>)
  {
    if st.modal.None? then (st, None)
    else
      var (st1, o) := ValidateStep(st, Trim(raw), st.modal.value, now, sha);
      (st1, Some(o))
  }

  /** `close2FAModal()` (also the Cancel button). */
  function CloseStep(st: State): (r: State)
    ensures r.modal.None?
  {
    st.(modal := None)
  }

  /** The first of `phases` whose caption occurs in `text` (`protectedPhases.find`). */
  function FirstContained(phases: seq<string>, text: string): (r: Option<string>)
    ensures r.Some? <==> exists p :: p in phases && Contains(text, p)
    ensures r.Some? ==> r.value in phases && Contains(text, r.value)
    ensures r.Some? ==> exists i :: 0 <= i < |phases| && phases[i] == r.value &&
                          forall j :: 0 <= j < i ==> !Contains(text, phases[j])
  {
    if phases == [] then None
    else if Contains(text, phases[0]) then
      assert phases[0] in phases;
      Some(phases[0])
    else
      var r := FirstContained(phases[1..], text);
      assert forall p :: p in phases && p != phases[0] ==> p in phases[1..];
      if r.Some? then
        var i :| 0 <= i < |phases[1..]| && phases[1..][i] == r.value &&
                 forall j :: 0 <= j < i ==> !Contains(text, phases[1..][j]);
        assert phases[i + 1] == r.value;
        assert forall j :: 0 < j <= i ==> phases[j] == phases[1..][j - 1];
        assert r.value in phases && Contains(text, r.value);
        r
      else r
  }

  /** The document click handler: a list item naming a protected phase is intercepted. */
  function ClickStep(st: State, isListItem: bool, text: string, now: int, draw: real,
                     sha: string -> seq<Byte>): (State, Option<string>)
    requires 0.0 <= draw < 1.0
  {
    if !isListItem then (st, None)
    else match FirstContained(ProtectedPhases, text)
      case None => (st, None)
      case Some(p) => (TriggerStep(st, RenderProtected(p), now, draw, sha).0, Some(p))
  }

  /** What running a continuation does. */
  datatype Effect = OpenSession(user: AuthController.User) | RenderPhase14 | RenderPhase16

  function Effects(k: Continuation): seq<Effect> {
    match k
    case FinishLogin(u) => [OpenSession(u)]
    case RenderProtected(p) =>
      (if Contains(p, "14") then [RenderPhase14] else []) + (if Contains(p, "16") then [RenderPhase16] else [])
  }

  // ---------------------------------------------------------------------------------------
  // Properties of trigger2FA

  /** While locked, a trigger changes nothing at all. */
  lemma TriggerWhileLocked(st: State, onSuccess: Continuation, now: int, draw: real, sha: string -> seq<Byte>)
    requires 0.0 <= draw < 1.0 && Locked(st, now)
    ensures TriggerStep(st, onSuccess, now, draw, sha) == (st, TriggerLocked)
  {
  }

  /**
   * Otherwise only the digest of the issued six-digit code is stored, the code expires one
   * minute from now, the attempt count restarts at 0 and the lock field is kept.
   */
  lemma TriggerIssuesChallenge(st: State, onSuccess: Continuation, now: int, draw: real, sha: string -> seq<Byte>)
    requires 0.0 <= draw < 1.0 && !Locked(st, now)
    ensures var (st', o) := TriggerStep(st, onSuccess, now, draw, sha);
            && o.Challenged? && |o.code| == 6 && 100000 <= DecimalValue(o.code) <= 999999
            && st'.otpHash == Some(HashValue(sha, o.code))
            && st'.expiresAt == Some(now + TtlMs)
            && st'.attempts == 0
            && st'.lockUntil == st.lockUntil
            && st'.modal.Some?
  {
  }

  /** A trigger while a modal is open keeps the old modal and hence its old continuation. */
  lemma TriggerKeepsOpenModal(st: State, onSuccess: Continuation, now: int, draw: real, sha: string -> seq<Byte>)
    requires 0.0 <= draw < 1.0 && st.modal.Some?
    ensures TriggerStep(st, onSuccess, now, draw, sha).0.modal == st.modal
  {
  }

  // ---------------------------------------------------------------------------------------
  // Properties of validateOTP

  /** An expired code fails without touching the state and without running the continuation. */
  lemma ValidateExpired(st: State, input: string, onSuccess: Continuation, now: int, sha: string -> seq<Byte>)
    requires Expired(st, now)
    ensures ValidateStep(st, input, onSuccess, now, sha) == (st, CodeExpired)
  {
  }

  /** A digest match closes the modal and runs the continuation; attempts and lock are kept. */
  lemma ValidateMatch(st: State, input: string, onSuccess: Continuation, now: int, sha: string -> seq<Byte>)
    requires !Expired(st, now) && st.otpHash == Some(HashValue(sha, input))
    ensures var (st', o) := ValidateStep(st, input, onSuccess, now, sha);
            o == Verified(onSuccess) && st' == st.(modal := None) &&
            st'.attempts == st.attempts && st'.lockUntil == st.lockUntil
  {
  }

  /** A mismatch raises the count by one; reaching three sets a one-minute lock. */
  lemma ValidateMismatch(st: State, input: string, onSuccess: Continuation, now: int, sha: string -> seq<Byte>)
    requires !Expired(st, now) && st.otpHash != Some(HashValue(sha, input))
    ensures var (st', o) := ValidateStep(st, input, onSuccess, now, sha);
            && st'.attempts == st.attempts + 1
            && st'.otpHash == st.otpHash && st'.expiresAt == st.expiresAt && st'.modal == st.modal
            && (st'.attempts >= MaxAttempts ==> st'.lockUntil == Some(now + LockMs) && o == LockedOut)
            && (st'.attempts < MaxAttempts ==> st'.lockUntil == st.lockUntil && o == InvalidCode(st'.attempts))
  {
  }

  /** Validation never reads the lock: the outcome is the same whatever `lockUntil` holds. */
  lemma ValidateIgnoresLock(st: State, l1: Option<int>, l2: Option<int>, input: string,
                            onSuccess: Continuation, now: int, sha: string -> seq<Byte>)
    ensures ValidateStep(st.(lockUntil := l1), input, onSuccess, now, sha).1 ==
            ValidateStep(st.(lockUntil := l2), input, onSuccess, now, sha).1
  {
  }

  /** In particular the right code is accepted even while the engine is locked. */
  lemma CorrectCodeAcceptedWhileLocked(st: State, input: string, onSuccess: Continuation, now: int,
                                       sha: string -> seq<Byte>)
    requires Locked(st, now) && !Expired(st, now) && st.otpHash == Some(HashValue(sha, input))
    ensures ValidateStep(st, input, onSuccess, now, sha).1 == Verified(onSuccess)
  {
  }

  /**
   * Within its minute, a fresh challenge accepts exactly its own code (the digest being
   * injective), and runs the continuation it was opened with.
   */
  lemma ChallengeAcceptsOnlyItsCode(st: State, onSuccess: Continuation, now: int, draw: real,
                                    sha: string -> seq<Byte>, input: string, t: int)
    requires 0.0 <= draw < 1.0 && !Locked(st, now) && st.modal.None?
    requires Injective(sha) && t <= now + TtlMs
    ensures var (st1, o1) := TriggerStep(st, onSuccess, now, draw, sha);
            var (st2, o2) := ValidateStep(st1, input, onSuccess, t, sha);
            o2.Verified? <==> input == o1.code
  {
    var otp := GenerateOTP(draw);
    HashesMatchIffCodesMatch(sha, otp, input);
  }

  datatype Try = Try(code: string, now: int)

  /** The state after validating `tries` in order against one continuation. */
  function ValidateAll(st: State, tries: seq<Try>, onSuccess: Continuation, sha: string -> seq<Byte>): State
    decreases |tries|
  {
    if tries == [] then st
    else
      var t := tries[|tries| - 1];
      ValidateStep(ValidateAll(st, tries[..|tries| - 1], onSuccess, sha), t.code, onSuccess, t.now, sha).0
  }

  /** Wrong codes before expiry, starting from a fresh count: the first two are only counted. */
  lemma {:induction false} WrongCodesCounted(st: State, tries: seq<Try>, onSuccess: Continuation,
                                             sha: string -> seq<Byte>)
    requires st.attempts == 0 && |tries| < MaxAttempts
    requires forall i :: 0 <= i < |tries| ==>
               !Expired(st, tries[i].now) && st.otpHash != Some(HashValue(sha, tries[i].code))
    ensures ValidateAll(st, tries, onSuccess, sha) == st.(attempts := |tries|)
    decreases |tries|
  {
    if tries != [] {
      WrongCodesCounted(st, tries[..|tries| - 1], onSuccess, sha);
    }
  }

  /** The third wrong code locks the engine for a minute from that attempt. */
  lemma ThirdWrongCodeLocks(st: State, tries: seq<Try>, onSuccess: Continuation, sha: string -> seq<Byte>)
    requires st.attempts == 0 && |tries| == MaxAttempts
    requires forall i :: 0 <= i < |tries| ==>
               !Expired(st, tries[i].now) && st.otpHash != Some(HashValue(sha, tries[i].code))
    ensures ValidateAll(st, tries, onSuccess, sha) ==
            st.(attempts := MaxAttempts, lockUntil := Some(tries[2].now + LockMs))
  {
    WrongCodesCounted(st, tries[..2], onSuccess, sha);
  }

  /** After the lock is set, a new challenge is refused until the lock time is reached. */
  lemma LockBlocksNewChallenge(st: State, tries: seq<Try>, onSuccess: Continuation, sha: string -> seq<Byte>,
                               k: Continuation, now: int, draw: real)
    requires st.attempts == 0 && |tries| == MaxAttempts
    requires forall i :: 0 <= i < |tries| ==>
               !Expired(st, tries[i].now) && st.otpHash != Some(HashValue(sha, tries[i].code))
    requires 0.0 <= draw < 1.0 && tries[2].now + LockMs != 0
    ensures var locked := ValidateAll(st, tries, onSuccess, sha);
            (now < tries[2].now + LockMs <==> TriggerStep(locked, k, now, draw, sha).1 == TriggerLocked)
  {
    ThirdWrongCodeLocks(st, tries, onSuccess, sha);
  }

  // ---------------------------------------------------------------------------------------
  // The Verify button and the click gate

  /**
   * Once verified the modal is gone, so a second press handled after the first cannot run
   * the continuation again (two presses racing on the pending digest are not modelled).
   */
  lemma VerifyAtMostOnce(st: State, raw: string, raw2: string, now: int, now2: int, sha: string -> seq<Byte>)
    requires st.modal.Some? && PressVerifyStep(st, raw, now, sha).1 == Some(Verified(st.modal.value))
    ensures PressVerifyStep(PressVerifyStep(st, raw, now, sha).0, raw2, now2, sha).1.None?
  {
  }

  /**
   * A clicked list item is intercepted exactly when its text names "Phase 14" or
   * "Phase 16"; the gate itself renders nothing and only opens a challenge whose
   * continuation renders the phase (the item's own click handler is not part of this model).
   */
  lemma ClickGate(st: State, isListItem: bool, text: string, now: int, draw: real, sha: string -> seq<Byte>)
    requires 0.0 <= draw < 1.0
    ensures var (st', p) := ClickStep(st, isListItem, text, now, draw, sha);
            && (p.Some? <==> isListItem && (Contains(text, "Phase 14") || Contains(text, "Phase 16")))
            && (p.None? ==> st' == st)
            && (p.Some? && Contains(text, "Phase 14") ==> p.value == "Phase 14")
            && (p.Some? && !Locked(st, now) && st.modal.None? ==> st'.modal == Some(RenderProtected(p.value)))
  {
    var r := FirstContained(ProtectedPhases, text);
    if r.Some? && Contains(text, "Phase 14") {
      var i :| 0 <= i < |ProtectedPhases| && ProtectedPhases[i] == r.value &&
               forall j :: 0 <= j < i ==> !Contains(text, ProtectedPhases[j]);
      assert i == 0;
    }
  }

  /** Each protected phase's continuation renders that phase and nothing else. */
  lemma ProtectedEffects()
    ensures Effects(RenderProtected("Phase 14")) == [RenderPhase14]
    ensures Effects(RenderProtected("Phase 16")) == [RenderPhase16]
  {
    LabelEffects("Phase 14", "14", "16");
    LabelEffects("Phase 16", "16", "14");
  }

  /** A phase caption names its own number and not the other protected one. */
  lemma LabelEffects(caption: string, own: string, other: string)
    requires |caption| == 8 && |other| == 2 && caption[6..] == own && own != other
    requires forall i :: 0 <= i < 6 ==> caption[i] != other[0]
    ensures Contains(caption, own) && !Contains(caption, other)
  {
    LabelIncludesNumber(caption, own);
    LabelExcludesNumber(caption, other);
  }

  lemma LabelIncludesNumber(caption: string, number: string)
    requires |caption| == 8 && caption[6..] == number
    ensures Contains(caption, number)
  {
    assert OccursAt(caption, number, 6);
    ContainsIffOccurs(caption, number);
  }

  lemma LabelExcludesNumber(caption: string, number: string)
    requires |caption| == 8 && |number| == 2 && caption[6..] != number
    requires forall i :: 0 <= i < 6 ==> caption[i] != number[0]
    ensures !Contains(caption, number)
  {
    forall i | 0 <= i <= 6 ensures !OccursAt(caption, number, i) {
      if i < 6 {
        assert caption[i..i + 2][0] == caption[i];
      } else {
        assert caption[i..i + 2] == caption[6..];
      }
    }
    ContainsIffOccurs(caption, number);
  }

  // ---------------------------------------------------------------------------------------
  // Hand-off from the login controller

  /**
   * A login that awaits the second factor, followed by a challenge and the user typing the
   * code they were sent before it expires, runs the continuation that opens that user's session.
   */
  lemma LoginHandoff(store: AuthController.Store, username: string, password: string, now: int,
                     loginTime: string, token: string, st: State, draw: real,
                     sha: string -> seq<Byte>, t: int)
    requires AuthController.LoginStep(store, username, password, now, true, loginTime, token).1.AwaitingSecondFactor?
    requires 0.0 <= draw < 1.0 && !Locked(st, now) && st.modal.None? && t <= now + TtlMs
    ensures var (store1, o) := AuthController.LoginStep(store, username, password, now, true, loginTime, token);
            var (st1, c) := TriggerStep(st, FinishLogin(o.user), now, draw, sha);
            var (st2, v) := PressVerifyStep(st1, c.code, t, sha);
            && v == Some(Verified(FinishLogin(o.user)))
            && Effects(v.value.onSuccess) == [OpenSession(o.user)]
            && AuthController.SessionOf(AuthController.Finalize(store1, o.user, loginTime, token)) ==
               Some(AuthController.Session(username, o.user.role, loginTime, token))
  {
    var otp := GenerateOTP(draw);
    assert forall i :: 0 <= i < |otp| ==> !IsSpace(otp[i]);
    TrimNoSpace(otp);
  }

  // ---------------------------------------------------------------------------------------
  // The engine over `twoFAState`

  class Engine {
    var otpHash: Option<string>
    var expiresAt: Option<int>
    var attempts: int
    var lockUntil: Option<int>
    var modal: Option<Continuation>

    constructor ()
      ensures Snapshot() == Initial
    {
      otpHash := None;
      expiresAt := None;
      attempts := 0;
      lockUntil := None;
      modal := None;
    }

    function Snapshot(): State
      reads this
    {
      State(otpHash, expiresAt, attempts, lockUntil, modal)
    }

    method IsLocked(now: int) returns (locked: bool)
      ensures locked == Locked(Snapshot(), now)
    {
      locked := lockUntil.Some? && lockUntil.value != 0 && now < lockUntil.value;
    }

    method Trigger(onSuccess: Continuation, now: int, draw: real, sha: string -> seq<Byte>)
      returns (outcome: TriggerOutcome)
      requires 0.0 <= draw < 1.0
      modifies this
      ensures (Snapshot(), outcome) == TriggerStep(old(Snapshot()), onSuccess, now, draw, sha)
    {
      var locked := IsLocked(now);
      if locked {
        return TriggerLocked;
      }
      var otp := GenerateOTP(draw);
      otpHash := Some(HashValue(sha, otp));
      expiresAt := Some(now + TtlMs);
      attempts := 0;
      ShowModal(onSuccess);
      return Challenged(otp);
    }

    method ShowModal(onSuccess: Continuation)
      modifies this
      ensures Snapshot() == WithModal(old(Snapshot()), onSuccess)
    {
      if modal.Some? {
        return;
      }
      modal := Some(onSuccess);
    }

    method CloseModal()
      modifies this
      ensures Snapshot() == CloseStep(old(Snapshot()))
    {
      modal := None;
    }

    method Validate(input: string, onSuccess: Continuation, now: int, sha: string -> seq<Byte>)
      returns (outcome: ValidateOutcome)
      modifies this
      ensures (Snapshot(), outcome) == ValidateStep(old(Snapshot()), input, onSuccess, now, sha)
    {
      var expiry := if expiresAt.Some? then expiresAt.value else 0;
      if now > expiry {
        return CodeExpired;
      }
      var hashedInput := HashValue(sha, input);
      if otpHash == Some(hashedInput) {
        CloseModal();
        return Verified(onSuccess);
      }
      attempts := attempts + 1;
      if attempts >= MaxAttempts {
        lockUntil := Some(now + LockMs);
        return LockedOut;
      }
      return InvalidCode(attempts);
    }

    method PressVerify(raw: string, now: int, sha: string -> seq<Byte>) returns (outcome: Option<ValidateOutcome>)
      modifies this
      ensures (Snapshot(), outcome) == PressVerifyStep(old(Snapshot()), raw, now, sha)
    {
      if modal.None? {
        return None;
      }
      var o := Validate(Trim(raw), modal.value, now, sha);
      return Some(o);
    }

    method Click(isListItem: bool, text: string, now: int, draw: real, sha: string -> seq<Byte>)
      returns (intercepted: Option<string>)
      requires 0.0 <= draw < 1.0
      modifies this
      ensures (Snapshot(), intercepted) == ClickStep(old(Snapshot()), isListItem, text, now, draw, sha)
    {
      if !isListItem {
        return None;
      }
      intercepted := FirstContained(ProtectedPhases, text);
      if intercepted.Some? {
        var _ := Trigger(RenderProtected(intercepted.value), now, draw, sha);
      }
    }
  }
}
