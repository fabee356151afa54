/** The value types of internal/domain: identifiers, statuses, error codes. */
module Domain {

  datatype Option<+T> = None | Some(value: T)

  // ---------------------------------------------------------------- identifiers

  /** A UUID is a 128-bit number; the all-zero UUID stands for "absent" in results. */
  type Uuid = n: nat | n < 0x1_0000_0000_0000_0000_0000_0000_0000_0000

  const NIL: Uuid := 0

  const HEX_DIGITS := "0123456789abcdef"

  function Pow16(d: nat): (p: nat)
    ensures p > 0
  {
    if d == 0 then 1 else 16 * Pow16(d - 1)
  }

  /** The low d hexadecimal digits of n, most significant first. */
  function Hex(n: nat, d: nat): (s: string)
    ensures |s| == d
  {
    if d == 0 then "" else Hex(n / 16, d - 1) + [HEX_DIGITS[n % 16]]
  }

  /** The 36-character textual form with dashes after 8, 12, 16 and 20 digits. */
  function UuidText(u: Uuid): (s: string)
    ensures |s| == 36
  {
    var h := Hex(u, 32);
    h[..8] + "-" + h[8..12] + "-" + h[12..16] + "-" + h[16..20] + "-" + h[20..]
  }

  lemma {:induction false} HexInjective(a: nat, b: nat, d: nat)
    requires a < Pow16(d) && b < Pow16(d)
    requires Hex(a, d) == Hex(b, d)
    ensures a == b
  {
    if d > 0 {
      var ha, hb := Hex(a / 16, d - 1), Hex(b / 16, d - 1);
      assert Hex(a, d)[..d - 1] == ha && Hex(b, d)[..d - 1] == hb;
      assert Hex(a, d)[d - 1] == HEX_DIGITS[a % 16] && Hex(b, d)[d - 1] == HEX_DIGITS[b % 16];
      assert a % 16 == b % 16;
      HexInjective(a / 16, b / 16, d - 1);
    }
  }

  lemma {:induction false} Pow16Plus(a: nat, b: nat)
    ensures Pow16(a + b) == Pow16(a) * Pow16(b)
  {
    if a > 0 {
      Pow16Plus(a - 1, b);
      assert Pow16(a + b) == 16 * Pow16(a - 1 + b);
    }
  }

  lemma Pow16Of32()
    ensures Pow16(32) == 0x1_0000_0000_0000_0000_0000_0000_0000_0000
  {
    assert Pow16(1) == 16;
    Pow16Plus(1, 1);
    Pow16Plus(2, 2);
    Pow16Plus(4, 4);
    Pow16Plus(8, 8);
    Pow16Plus(16, 16);
  }

  /** Distinct UUIDs print differently, so a text never stands for two of them. */
  lemma UuidTextInjective(a: Uuid, b: Uuid)
    ensures UuidText(a) == UuidText(b) <==> a == b
  {
    if UuidText(a) == UuidText(b) {
      var ha, hb, s, t := Hex(a, 32), Hex(b, 32), UuidText(a), UuidText(b);
      assert s[..8] == ha[..8] && t[..8] == hb[..8];
      assert s[9..13] == ha[8..12] && t[9..13] == hb[8..12];
      assert s[14..18] == ha[12..16] && t[14..18] == hb[12..16];
      assert s[19..23] == ha[16..20] && t[19..23] == hb[16..20];
      assert s[24..] == ha[20..] && t[24..] == hb[20..];
      assert ha == ha[..8] + ha[8..12] + ha[12..16] + ha[16..20] + ha[20..];
      assert hb == hb[..8] + hb[8..12] + hb[12..16] + hb[16..20] + hb[20..];
      Pow16Of32();
      HexInjective(a, b, 32);
    }
  }

  /** A phone number as stored or reported; only equality matters to the tables. */
  datatype Phone = Phone(digits: string)

  // ---------------------------------------------------------------- statuses

  /** Target statuses; Other is any text that the database enumeration rejects. */
  datatype TaskStatus =
    | Pending
    | Sent
    | Delivered
    | Viewed
    | Failed
    | Replied
    | UserNotFoundByPhone
    | RetryPending
    | DeliveryUnknown
    | Other(text: string)
  {
    predicate IsErrorStatus() {
      Failed? || UserNotFoundByPhone? || DeliveryUnknown?
    }

    function Rank(): nat {
      match this
      case Replied => 4
      case Viewed => 3
      case Sent | Delivered => 2
      case Pending | RetryPending => 1
      case _ => 0
    }

    /** The seven statuses a target can only reach through a result. */
    predicate IsSettled() {
      IsErrorStatus() || Sent? || Delivered? || Viewed? || Replied?
    }

    /** Statuses that only the orchestrator itself is meant to write. */
    predicate IsOrchestratorOwned() {
      Pending? || RetryPending?
    }
  }

  datatype CampaignStatus = Draft | Processing | Completed | Paused | CampaignFailed | Stopped

  datatype AccountStatus = Active | Cooldown | Disabled

  // ---------------------------------------------------------------- error codes

  const USER_NOT_FOUND_BY_PHONE := "USER_NOT_FOUND_BY_PHONE"
  const INVALID_PHONE := "INVALID_PHONE"
  const SESSION_EXPIRED := "SESSION_EXPIRED"
  const WORKER_UNAVAILABLE := "WORKER_UNAVAILABLE"
  const MAX_UI_ERROR := "MAX_UI_ERROR"
  const BROWSER_ERROR := "BROWSER_ERROR"
  const DELIVERY_UNKNOWN := "DELIVERY_UNKNOWN"
  const BLOCKED_RECIPIENT := "BLOCKED_RECIPIENT"
  const ACCOUNT_MISMATCH := "ACCOUNT_MISMATCH"

  datatype Disposition = Final | Retryable | Unknown

  /** White space as Unicode defines it. */
  predicate IsSpace(ch: char) {
    var n := ch as int;
    9 <= n <= 13 || n == 32 || n == 0x85 || n == 0xA0 || n == 0x1680 ||
    0x2000 <= n <= 0x200A || n == 0x2028 || n == 0x2029 || n == 0x202F || n == 0x205F || n == 0x3000
  }

  function TrimLeft(s: string): (t: string)
    ensures |t| <= |s| && (t == "" || !IsSpace(t[0]))
  {
    if s != "" && IsSpace(s[0]) then TrimLeft(s[1..]) else s
  }

  function TrimRight(s: string): (t: string)
    ensures t <= s && (t == "" || !IsSpace(t[|t| - 1]))
  {
    if s != "" && IsSpace(s[|s| - 1]) then TrimRight(s[..|s| - 1]) else s
  }

  function TrimSpace(s: string): string {
    TrimRight(TrimLeft(s))
  }

  lemma TrimSpaceIdempotent(s: string)
    ensures TrimSpace(TrimSpace(s)) == TrimSpace(s)
  {
    var t := TrimSpace(s);
    if t != "" {
      assert t[0] == TrimLeft(s)[0];
      assert TrimLeft(t) == t;
    }
    assert TrimRight(t) == t;
  }

  predicate IsPadding(s: string) {
    forall i :: 0 <= i < |s| ==> IsSpace(s[i])
  }

  lemma {:induction false} TrimLeftPadding(left: string, s: string)
    requires IsPadding(left)
    ensures TrimLeft(left + s) == TrimLeft(s)
  {
    if left == "" {
      assert left + s == s;
    } else {
      assert (left + s)[1..] == left[1..] + s;
      TrimLeftPadding(left[1..], s);
    }
  }

  lemma {:induction false} TrimRightPadding(s: string, right: string)
    requires IsPadding(right)
    ensures TrimRight(s + right) == TrimRight(s)
  {
    if right == "" {
      assert s + right == s;
    } else {
      assert (s + right)[..|s + right| - 1] == s + right[..|right| - 1];
      TrimRightPadding(s, right[..|right| - 1]);
    }
  }

  /** Trimming takes away the padding and nothing else. */
  lemma TrimPadded(left: string, s: string, right: string)
    requires IsPadding(left) && IsPadding(right) && (s == "" || (!IsSpace(s[0]) && !IsSpace(s[|s| - 1])))
    ensures TrimSpace(left + s + right) == s
  {
    assert left + s + right == left + (s + right);
    TrimLeftPadding(left, s + right);
    if s == "" {
      assert s + right == right + "";
      TrimLeftPadding(right, "");
    } else {
      TrimRightPadding(s, right);
    }
  }

  /** Upper case, exact for every character whose upper case is an ASCII letter. */
  function UpperChar(ch: char): char {
    if 'a' <= ch <= 'z' then (ch as int - 32) as char
    else if ch as int == 0x131 then 'I'
    else if ch as int == 0x17F then 'S'
    else ch
  }

  function ToUpper(s: string): (u: string)
    ensures |u| == |s|
  {
    if s == "" then "" else [UpperChar(s[0])] + ToUpper(s[1..])
  }

  function ClassifyErrorCode(code: string): Disposition {
    var c := ToUpper(TrimSpace(code));
    if c in {USER_NOT_FOUND_BY_PHONE, INVALID_PHONE, BLOCKED_RECIPIENT, ACCOUNT_MISMATCH} then Final
    else if c == DELIVERY_UNKNOWN then Unknown
    else if c in {SESSION_EXPIRED, WORKER_UNAVAILABLE, MAX_UI_ERROR, BROWSER_ERROR} then Retryable
    else Final
  }

  predicate IsSessionHealthError(code: string) {
    ToUpper(TrimSpace(code)) in {SESSION_EXPIRED, BROWSER_ERROR}
  }

  lemma {:induction false} UpperFixed(s: string)
    requires forall i :: 0 <= i < |s| ==> UpperChar(s[i]) == s[i]
    ensures ToUpper(s) == s
  {
    if s != "" { UpperFixed(s[1..]); }
  }

  /** A code written as the constants are is compared as it stands. */
  lemma CleanCode(s: string)
    requires s != "" && !IsSpace(s[0]) && !IsSpace(s[|s| - 1])
    requires forall i :: 0 <= i < |s| ==> UpperChar(s[i]) == s[i]
    ensures TrimSpace(s) == s && ToUpper(TrimSpace(s)) == s
  {
    UpperFixed(s);
  }

  /** A text that spells the code, each letter in either case. */
  predicate Spells(s: string, code: string) {
    |s| == |code| &&
    forall i :: 0 <= i < |s| ==> s[i] == code[i] || ('A' <= code[i] <= 'Z' && s[i] as int == code[i] as int + 32)
  }

  lemma {:induction false} UpperSpells(s: string, code: string)
    requires Spells(s, code) && forall i :: 0 <= i < |code| ==> 'A' <= code[i] <= '_'
    ensures ToUpper(s) == code
  {
    if s != "" { UpperSpells(s[1..], code[1..]); }
  }

  /** In any case and padding, a code of capitals and underscores is compared as that code. */
  lemma CodeInAnyForm(left: string, s: string, right: string, code: string)
    requires IsPadding(left) && IsPadding(right) && Spells(s, code)
    requires forall i :: 0 <= i < |code| ==> 'A' <= code[i] <= '_'
    ensures ToUpper(TrimSpace(left + s + right)) == code
  {
    TrimPadded(left, s, right);
    UpperSpells(s, code);
  }

  lemma NoFinalCodeStartsWithD(s: string)
    requires s != "" && s[0] == 'D'
    ensures s !in {USER_NOT_FOUND_BY_PHONE, INVALID_PHONE, BLOCKED_RECIPIENT, ACCOUNT_MISMATCH}
  {
    assert USER_NOT_FOUND_BY_PHONE[0] == 'U' && INVALID_PHONE[0] == 'I';
    assert BLOCKED_RECIPIENT[0] == 'B' && ACCOUNT_MISMATCH[0] == 'A';
  }

  /** No code that is retried is final. */
  lemma NoRetriedCodeIsFinal(s: string)
    requires s in {"SESSION_EXPIRED", "WORKER_UNAVAILABLE", "MAX_UI_ERROR", "BROWSER_ERROR"}
    ensures s !in {USER_NOT_FOUND_BY_PHONE, INVALID_PHONE, BLOCKED_RECIPIENT, ACCOUNT_MISMATCH}
    ensures s != DELIVERY_UNKNOWN
  {
    assert USER_NOT_FOUND_BY_PHONE[0] == 'U' && INVALID_PHONE[0] == 'I' && DELIVERY_UNKNOWN[0] == 'D';
    assert BLOCKED_RECIPIENT[0] == 'B' && BLOCKED_RECIPIENT[1] == 'L' && ACCOUNT_MISMATCH[0] == 'A';
    assert s[0] in {'S', 'W', 'M'} || (s[0] == 'B' && s[1] == 'R');
  }

  /**
   A code is taken by its text alone, whatever its case and padding: four texts are retried, one leaves the
   delivery unknown and all others, known or not, are final.
   */
  lemma DispositionByText(code: string)
    ensures var text := ToUpper(TrimSpace(code));
            ClassifyErrorCode(code) ==
            if text in {"SESSION_EXPIRED", "WORKER_UNAVAILABLE", "MAX_UI_ERROR", "BROWSER_ERROR"} then Retryable
            else if text == "DELIVERY_UNKNOWN" then Unknown
            else Final
  {
    var text := ToUpper(TrimSpace(code));
    if text in {"SESSION_EXPIRED", "WORKER_UNAVAILABLE", "MAX_UI_ERROR", "BROWSER_ERROR"} {
      NoRetriedCodeIsFinal(text);
    } else if text == "DELIVERY_UNKNOWN" {
      NoFinalCodeStartsWithD(text);
    }
  }

  /** The texts of the five codes that do not settle a failure. */
  predicate IsUnsettled(text: string) {
    text in {"SESSION_EXPIRED", "WORKER_UNAVAILABLE", "MAX_UI_ERROR", "BROWSER_ERROR", "DELIVERY_UNKNOWN"}
  }

  lemma FinalByText(code: string)
    ensures ClassifyErrorCode(code) == Final <==> !IsUnsettled(ToUpper(TrimSpace(code)))
  {
    DispositionByText(code);
  }

  lemma DeliveryUnknownIsUnknown()
    ensures ClassifyErrorCode(DELIVERY_UNKNOWN) == Unknown
  {
    CleanCode(DELIVERY_UNKNOWN);
    NoFinalCodeStartsWithD(DELIVERY_UNKNOWN);
  }

  lemma BlockedRecipientIsFinal()
    ensures TrimSpace(BLOCKED_RECIPIENT) == BLOCKED_RECIPIENT && ClassifyErrorCode(BLOCKED_RECIPIENT) == Final
  {
    CleanCode(BLOCKED_RECIPIENT);
  }

  /** Only a code that is retried can also cool an account down. */
  lemma SessionHealthIsRetryable(code: string)
    requires IsSessionHealthError(code)
    ensures ClassifyErrorCode(code) == Retryable
  {
    var c := ToUpper(TrimSpace(code));
    if c == SESSION_EXPIRED {
      assert c[0] == 'S';
    } else {
      assert c[1] == 'R';
    }
  }
}
