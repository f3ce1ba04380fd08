/** The identifier formats shared by the accounting selectors, and the two
    string encodings the selectors use as map keys. */
module Identifiers {

  datatype Option<+T> = None | Some(value: T)
  {
    /** The value, or `default` when there is none. */
    function GetOr(default: T): T {
      if Some? then value else default
    }
  }

  const MAX_SAFE_INTEGER := 0x1F_FFFF_FFFF_FFFF

  /** `Number.isSafeInteger` on a finite number. */
  predicate IsSafeInteger(x: real) {
    x.Floor as real == x && -MAX_SAFE_INTEGER <= x.Floor <= MAX_SAFE_INTEGER
  }

  /** The string checks and the hash that one selector applies. The selectors are
      proved for every choice of these functions; `NoticingFormats`
      and `ApprovalProjectionFormats` below are the choices the repository makes. */
  datatype Formats = Formats(
    safeId: string -> bool,
    digest: string -> bool,
    jobId: string -> bool,
    sha256: string -> string)

  /** The characters that `String.prototype.trim` removes. */
  predicate IsBlank(c: char) {
    || '\t' <= c <= '\r' || c == ' ' || c == '\U{00A0}' || c == '\U{1680}'
    || '\U{2000}' <= c <= '\U{200A}' || c == '\U{2028}' || c == '\U{2029}'
    || c == '\U{202F}' || c == '\U{205F}' || c == '\U{3000}' || c == '\U{FEFF}'
  }

  predicate Trimmed(s: string) {
    s == "" || (!IsBlank(s[0]) && !IsBlank(s[|s| - 1]))
  }

  predicate SafeId(s: string) {
    && 0 < |s| <= 512
    && Trimmed(s)
    && forall c | c in s :: ' ' < c && c != '\U{007F}'
  }

  predicate ExactIdentity(s: string) {
    0 < |s| && Trimmed(s) && forall c | c in s :: ' ' <= c
  }

  predicate IsWordChar(c: char) {
    'A' <= c <= 'Z' || 'a' <= c <= 'z' || '0' <= c <= '9'
  }

  predicate IsHex(c: char) {
    '0' <= c <= '9' || 'a' <= c <= 'f'
  }

  predicate HexRun(s: string, n: nat) {
    |s| == n && forall c | c in s :: IsHex(c)
  }

  predicate Digest(s: string) {
    HexRun(s, 64)
  }

  /** Five lower-case hexadecimal groups of 8, 4, 4, 4 and 12, joined by dashes. */
  predicate Uuid(s: string) {
    && |s| == 36
    && s[8] == s[13] == s[18] == s[23] == '-'
    && HexRun(s[..8], 8) && HexRun(s[9..13], 4) && HexRun(s[14..18], 4)
    && HexRun(s[19..23], 4) && HexRun(s[24..], 12)
  }

  predicate NoticingJobId(s: string) {
    var prefix := "noticing-job:";
    prefix <= s && Uuid(s[|prefix|..])
  }

  predicate ApprovalProjectionJobId(s: string) {
    var prefix := "approval-projection-job:";
    && prefix <= s && Uuid(s[|prefix|..])
    && s[|prefix| + 14] == '4' && s[|prefix| + 19] in "89ab"
  }

  function NoticingFormats(sha256: string -> string): Formats {
    Formats(s => SafeId(s), s => Digest(s), s => NoticingJobId(s), sha256)
  }

  function ApprovalProjectionFormats(sha256: string -> string): Formats {
    Formats(s => SafeId(s), s => Digest(s), s => ApprovalProjectionJobId(s), sha256)
  }

  /** A lower-case hexadecimal digit. */
  ghost predicate Hexadecimal(c: char) {
    c in "0123456789abcdef"
  }

  /** The text of a UUID: dashes at four places, and hexadecimal digits elsewhere. */
  ghost predicate UuidText(u: string) {
    |u| == 36 && forall i | 0 <= i < 36 :: if i in {8, 13, 18, 23} then u[i] == '-' else Hexadecimal(u[i])
  }

  lemma HexIs(c: char)
    ensures IsHex(c) <==> Hexadecimal(c)
  {
    assert "0123456789abcdef" == ['0', '1', '2', '3', '4', '5', '6', '7', '8', '9', 'a', 'b', 'c', 'd', 'e', 'f'];
  }

  lemma DigestIs(s: string)
    ensures Digest(s) <==> |s| == 64 && forall i | 0 <= i < 64 :: Hexadecimal(s[i])
  {
    forall c {
      HexIs(c);
    }
    hide IsHex, Hexadecimal;
  }

  lemma UuidIs(u: string)
    ensures Uuid(u) <==> UuidText(u)
  {
    forall c {
      HexIs(c);
    }
    hide IsHex, Hexadecimal;
    if UuidText(u) {
      assert forall i | 0 <= i < 8 :: IsHex(u[..8][i]);
      assert forall i | 0 <= i < 4 :: IsHex(u[9..13][i]) && IsHex(u[14..18][i]) && IsHex(u[19..23][i]);
      assert forall i | 0 <= i < 12 :: IsHex(u[24..][i]);
    }
    if Uuid(u) {
      forall i | 0 <= i < 36 ensures if i in {8, 13, 18, 23} then u[i] == '-' else Hexadecimal(u[i]) {
        if i < 8 {
          assert u[..8][i] == u[i];
        } else if 8 < i < 13 {
          assert u[9..13][i - 9] == u[i];
        } else if 13 < i < 18 {
          assert u[14..18][i - 14] == u[i];
        } else if 18 < i < 23 {
          assert u[19..23][i - 19] == u[i];
        } else if 23 < i {
          assert u[24..][i - 24] == u[i];
        }
      }
    }
  }

  /** The formats of the two selectors: 64 hexadecimal digits for a digest, and a
      prefix before a UUID for a job, of version 4 for an approval projection. */
  lemma FormatsAre(sha256: string -> string, s: string)
    ensures NoticingFormats(sha256).digest(s) <==> |s| == 64 && forall i | 0 <= i < 64 :: Hexadecimal(s[i])
    ensures ApprovalProjectionFormats(sha256).digest(s) <==> NoticingFormats(sha256).digest(s)
    ensures NoticingFormats(sha256).safeId(s) == ApprovalProjectionFormats(sha256).safeId(s) == SafeId(s)
    ensures NoticingFormats(sha256).jobId(s) <==> exists u :: s == "noticing-job:" + u && UuidText(u)
    ensures ApprovalProjectionFormats(sha256).jobId(s) <==>
              exists u ::
                s == "approval-projection-job:" + u && UuidText(u) && u[14] == '4' && u[19] in {'8', '9', 'a', 'b'}
  {
    DigestIs(s);
    forall u {
      UuidIs(u);
    }
    hide Uuid, UuidText, Digest, SafeId, HexRun;
    if NoticingJobId(s) {
      assert s == "noticing-job:" + s[|"noticing-job:"|..];
    }
    if ApprovalProjectionJobId(s) {
      assert s == "approval-projection-job:" + s[|"approval-projection-job:"|..];
    }
    assert "89ab" == ['8', '9', 'a', 'b'];
  }

  /** A row source is a noticing job or an approval-projection job, never both. */
  lemma JobNamespacesDisjoint(s: string)
    ensures !(NoticingJobId(s) && ApprovalProjectionJobId(s))
  {
  }

  function DigitChar(d: nat): char
    requires d < 10
  {
    "0123456789"[d]
  }

  /** The decimal rendering that template literals use for an event sequence. */
  function Decimal(n: nat): string {
    if n < 10 then [DigitChar(n)] else Decimal(n / 10) + [DigitChar(n % 10)]
  }

  lemma {:induction false} DecimalDigits(n: nat)
    ensures 0 < |Decimal(n)| && forall c | c in Decimal(n) :: '0' <= c <= '9'
  {
    if n >= 10 {
      DecimalDigits(n / 10);
    }
  }

  lemma {:induction false} DecimalInjective(m: nat, n: nat)
    requires Decimal(m) == Decimal(n)
    ensures m == n
  {
    var s, t := Decimal(m), Decimal(n);
    assert s[|s| - 1] == DigitChar(m % 10) && t[|t| - 1] == DigitChar(n % 10);
    if m >= 10 {
      DecimalDigits(m / 10);
    }
    if n >= 10 {
      DecimalDigits(n / 10);
    }
    if m >= 10 && n >= 10 {
      assert s[..|s| - 1] == Decimal(m / 10) && t[..|t| - 1] == Decimal(n / 10);
      DecimalInjective(m / 10, n / 10);
    }
  }

  /** The key of one accepted source: its session and event sequence. */
  function SourceKey(sessionId: string, seqNo: nat): string {
    sessionId + ":" + Decimal(seqNo)
  }

  /** No two accepted sources share a key, whatever characters a session id holds. */
  lemma SourceKeyInjective(s: string, m: nat, t: string, n: nat)
    requires SourceKey(s, m) == SourceKey(t, n)
    ensures s == t && m == n
  {
    var k := SourceKey(s, m);
    DecimalDigits(m);
    DecimalDigits(n);
    assert k[|s|] == ':' && k[|t|] == ':';
    assert forall i | |s| < i < |k| :: k[i] == Decimal(m)[i - |s| - 1] && k[i] in Decimal(m);
    assert forall i | |t| < i < |k| :: k[i] == Decimal(n)[i - |t| - 1] && k[i] in Decimal(n);
    assert |s| == |t|;
    assert k[..|s|] == s && k[..|t|] == t;
    assert k[|s| + 1..] == Decimal(m) && k[|t| + 1..] == Decimal(n);
    DecimalInjective(m, n);
  }

  /** An accepted source as decoded from its key. */
  datatype Source = Source(sessionId: string, seqNo: nat)

  predicate IsDigit(c: char) {
    '0' <= c <= '9'
  }

  function TrailingDigits(s: string): (d: nat)
    ensures d <= |s|
  {
    if s == "" || !IsDigit(s[|s| - 1]) then 0 else 1 + TrailingDigits(s[..|s| - 1])
  }

  function ValueOf(digits: string): nat {
    if digits == "" then 0
    else
      var c := digits[|digits| - 1];
      10 * ValueOf(digits[..|digits| - 1]) + if IsDigit(c) then c as int - '0' as int else 0
  }

  predicate OneLine(s: string) {
    forall c | c in s :: c != '\n' && c != '\r' && c != '\U{2028}' && c != '\U{2029}'
  }

  /** `/^(.+):([1-9]\d*)$/` applied to a source key. */
  function ParseSource(key: string): Option<Source> {
    var d := TrailingDigits(key);
    var colon := |key| - d - 1;
    if d == 0 || colon < 1 || key[colon] != ':' || key[colon + 1] == '0' || !OneLine(key[..colon]) then None
    else Some(Source(key[..colon], ValueOf(key[colon + 1..])))
  }

  lemma {:induction false} DecimalReadsBack(prefix: string, n: nat)
    requires prefix == "" || !IsDigit(prefix[|prefix| - 1])
    ensures ValueOf(Decimal(n)) == n
    ensures TrailingDigits(prefix + Decimal(n)) == |Decimal(n)|
    ensures n > 0 ==> Decimal(n)[0] != '0'
  {
    var s := prefix + Decimal(n);
    var init := Decimal(n)[..|Decimal(n)| - 1];
    assert s[..|s| - 1] == prefix + init;
    assert Decimal(n)[|Decimal(n)| - 1] == DigitChar(n % 10);
    if n >= 10 {
      DecimalReadsBack(prefix, n / 10);
      assert init == Decimal(n / 10);
    }
  }

  /** Every source key of a positive sequence reads back as its own source. */
  lemma SourceKeyReadsBack(sessionId: string, n: nat)
    requires sessionId != "" && OneLine(sessionId) && n > 0
    ensures ParseSource(SourceKey(sessionId, n)) == Some(Source(sessionId, n))
  {
    var key := SourceKey(sessionId, n);
    DecimalDigits(n);
    DecimalReadsBack(sessionId + ":", n);
    assert key == sessionId + ":" + Decimal(n);
    assert key[..|sessionId|] == sessionId && key[|sessionId| + 1..] == Decimal(n);
  }

  predicate Increasing(s: seq<nat>) {
    forall i, j | 0 <= i < j < |s| :: s[i] < s[j]
  }

  /** `[...indices].sort((a, b) => a - b)` for indices below `bound`. */
  function Ascending(indices: set<nat>, bound: nat): (sorted: seq<nat>)
    ensures forall i :: i in sorted <==> i in indices && i < bound
    ensures Increasing(sorted)
  {
    if bound == 0 then []
    else
      var rest := Ascending(indices, bound - 1);
      assert forall i | 0 <= i < |rest| :: rest[i] in rest;
      if bound - 1 in indices then rest + [bound - 1] else rest
  }

  lemma AscendingEmpty(indices: set<nat>, bound: nat)
    requires forall i | i in indices :: i < bound
    ensures Ascending(indices, bound) == [] <==> indices == {}
  {
  }
}
