/** DHT mailbox keys, and what an envelope signature binds. */
module MailboxKeys {
  import opened Wrappers
  import opened Bytes

  const PREFIX: bytes := [0x76, 0x6D, 0x62, 0x5F] // "vmb_"
  const UNDERSCORE: byte := 0x5F
  const PLUS: byte := 0x2B
  const U64: nat := 0x1_0000_0000_0000_0000

  type pos = x: int | x >= 1 witness 1

  // ── Decimal digits ────────────────────────────────────────────────

  /** `v` in decimal, zero-padded to `width` digits (and cut to them). */
  function Decimal(v: nat, width: nat): bytes {
    if width == 0 then [] else Decimal(v / 10, width - 1) + [0x30 + v % 10]
  }

  predicate IsDigit(b: byte) { 0x30 <= b <= 0x39 }

  predicate AllDigits(b: bytes) { forall i | 0 <= i < |b| :: IsDigit(b[i]) }

  function DecimalValue(b: bytes): nat
    requires AllDigits(b)
  {
    if |b| == 0 then 0 else 10 * DecimalValue(b[..|b| - 1]) + (b[|b| - 1] - 0x30)
  }

  function Pow10(width: nat): nat {
    if width == 0 then 1 else 10 * Pow10(width - 1)
  }

  lemma {:induction false} DecimalRoundTrip(v: nat, width: nat)
    ensures |Decimal(v, width)| == width && AllDigits(Decimal(v, width))
    ensures v < Pow10(width) ==> DecimalValue(Decimal(v, width)) == v
  {
    if width == 0 {
    } else {
      DecimalRoundTrip(v / 10, width - 1);
      assert Decimal(v, width)[..width - 1] == Decimal(v / 10, width - 1);
    }
  }

  lemma {:induction false} DecimalOfValue(b: bytes)
    requires AllDigits(b)
    ensures DecimalValue(b) < Pow10(|b|) && Decimal(DecimalValue(b), |b|) == b
  {
    if |b| == 0 {
    } else {
      var front, digit := b[..|b| - 1], b[|b| - 1] - 0x30;
      DecimalOfValue(front);
      ShiftDigit(DecimalValue(front), digit);
      assert Decimal(DecimalValue(b), |b|) == Decimal(DecimalValue(front), |front|) + [0x30 + digit];
    }
  }

  lemma ShiftDigit(v: nat, digit: nat)
    requires digit < 10
    ensures (10 * v + digit) / 10 == v && (10 * v + digit) % 10 == digit
  {
  }

  lemma TwentyDigitsHoldU64()
    ensures U64 < Pow10(20)
  {
    assert Pow10(20) == 10000 * Pow10(16) by {
      assert Pow10(20) == 10 * Pow10(19) == 100 * Pow10(18) == 1000 * Pow10(17) == 10000 * Pow10(16);
    }
    assert Pow10(16) == 10000 * Pow10(12) by {
      assert Pow10(16) == 10 * Pow10(15) == 100 * Pow10(14) == 1000 * Pow10(13) == 10000 * Pow10(12);
    }
    assert Pow10(12) == 10000 * Pow10(8) by {
      assert Pow10(12) == 10 * Pow10(11) == 100 * Pow10(10) == 1000 * Pow10(9) == 10000 * Pow10(8);
    }
    assert Pow10(8) == 10000 * Pow10(4) by {
      assert Pow10(8) == 10 * Pow10(7) == 100 * Pow10(6) == 1000 * Pow10(5) == 10000 * Pow10(4);
    }
    assert Pow10(4) == 10 * Pow10(3) == 100 * Pow10(2) == 1000 * Pow10(1) == 10000;
  }

  /** `str::parse::<u64>`: an optional plus sign, at least one digit, no overflow. */
  function ParseU64(b: bytes): Option<nat> {
    var digits := if |b| > 1 && b[0] == PLUS then b[1..] else b;
    if |digits| == 0 || !AllDigits(digits) || DecimalValue(digits) >= U64 then None else Some(DecimalValue(digits))
  }

  // ── Mailbox keys ──────────────────────────────────────────────────

  function MailboxSeqKey(userHash: bytes, seqNo: nat): bytes { PREFIX + userHash + ([UNDERSCORE] + Decimal(seqNo, 20)) }

  /** `rposition` of an underscore. */
  function LastUnderscore(b: bytes): (r: Option<nat>)
    ensures r.Some? ==> r.value < |b|
  {
    if |b| == 0 then None
    else if b[|b| - 1] == UNDERSCORE then Some(|b| - 1)
    else LastUnderscore(b[..|b| - 1])
  }

  function ParseUserHash(key: bytes): Option<bytes> {
    if |key| < 4 || key[..4] != PREFIX then None
    else
      var end :- LastUnderscore(key[4..]);
      Some(key[4..][..end])
  }

  function ParseMailboxKey(key: bytes): Option<(bytes, nat)> {
    var userHash :- ParseUserHash(key);
    var end :- LastUnderscore(key[4..]);
    var seqNo :- ParseU64(key[4..][end + 1..]);
    Some((userHash, seqNo))
  }

  lemma {:induction false} LastUnderscoreIsLast(b: bytes)
    ensures match LastUnderscore(b)
            case None => UNDERSCORE !in b
            case Some(i) => i < |b| && b[i] == UNDERSCORE && UNDERSCORE !in b[i + 1..]
  {
    if |b| == 0 || b[|b| - 1] == UNDERSCORE {
    } else {
      var front := b[..|b| - 1];
      LastUnderscoreIsLast(front);
      assert b == front + [b[|b| - 1]];
      if LastUnderscore(front).Some? {
        var i := LastUnderscore(front).value;
        assert b[i + 1..] == front[i + 1..] + [b[|b| - 1]];
      }
    }
  }

  lemma LastUnderscoreAt(front: bytes, tail: bytes)
    requires UNDERSCORE !in tail
    ensures LastUnderscore(front + ([UNDERSCORE] + tail)) == Some(|front|)
  {
    var b := front + ([UNDERSCORE] + tail);
    LastUnderscoreIsLast(b);
    assert b[|front|] == UNDERSCORE;
    assert UNDERSCORE !in b[|front| + 1..] by {
      assert b[|front| + 1..] == tail;
    }
    NothingAfter(b, |front|);
    NothingAfter(b, LastUnderscore(b).value);
  }

  lemma NothingAfter(b: bytes, i: nat)
    requires i < |b| && UNDERSCORE !in b[i + 1..]
    ensures forall j | i < j < |b| :: b[j] != UNDERSCORE
  {
    forall j | i < j < |b| ensures b[j] != UNDERSCORE {
      assert b[i + 1..][j - i - 1] == b[j];
    }
  }

  lemma NoUnderscoreInDigits(b: bytes)
    requires AllDigits(b)
    ensures UNDERSCORE !in b && PLUS !in b
  {
  }

  /** How a key splits. */
  lemma SplitKey(userHash: bytes, tail: bytes)
    requires UNDERSCORE !in tail
    ensures var key := PREFIX + userHash + ([UNDERSCORE] + tail);
            ParseUserHash(key) == Some(userHash) && LastUnderscore(key[4..]) == Some(|userHash|)
            && |userHash| < |key[4..]| && key[4..][|userHash| + 1..] == tail
  {
    var key := PREFIX + userHash + ([UNDERSCORE] + tail);
    assert key[..4] == PREFIX;
    assert key[4..] == userHash + ([UNDERSCORE] + tail);
    LastUnderscoreAt(userHash, tail);
    assert key[4..][..|userHash|] == userHash && key[4..][|userHash| + 1..] == tail;
  }

  /** Every key parses back to its hash, underscores in it or not, and its number. */
  lemma KeyRoundTrip(userHash: bytes, seqNo: nat)
    requires seqNo < U64
    ensures ParseMailboxKey(MailboxSeqKey(userHash, seqNo)) == Some((userHash, seqNo))
  {
    var digits := Decimal(seqNo, 20);
    DecimalRoundTrip(seqNo, 20);
    TwentyDigitsHoldU64();
    NoUnderscoreInDigits(digits);
    SplitKey(userHash, digits);
    assert ParseU64(digits) == Some(seqNo);
  }

  lemma KeysAreInjective(h: bytes, s: nat, h': bytes, s': nat)
    requires s < U64 && s' < U64 && MailboxSeqKey(h, s) == MailboxSeqKey(h', s')
    ensures h == h' && s == s'
  {
    KeyRoundTrip(h, s);
    KeyRoundTrip(h', s');
  }

  /** A parsed key is its hash, an underscore and digits. */
  lemma UnparseKey(key: bytes)
    requires ParseMailboxKey(key).Some?
    ensures var h := ParseMailboxKey(key).value.0;
            4 + |h| < |key| && ParseU64(key[4 + |h| + 1..]) == Some(ParseMailboxKey(key).value.1)
            && key == PREFIX + h + ([UNDERSCORE] + key[4 + |h| + 1..])
  {
    var rest := key[4..];
    LastUnderscoreIsLast(rest);
    var i := LastUnderscore(rest).value;
    assert i < |rest| && ParseMailboxKey(key).value.0 == rest[..i];
    CutAround(key, i);
  }

  lemma CutAround(key: bytes, i: nat)
    requires 4 + i < |key|
    ensures var rest := key[4..];
            key == key[..4] + rest[..i] + ([rest[i]] + rest[i + 1..]) && rest[i + 1..] == key[4 + i + 1..]
  {
  }

  /**
   The parser also takes other spellings of a number; it took the printed one
   exactly when that has 20 digits and no sign.
   */
  lemma ParsedKeyIsPrinted(key: bytes)
    requires ParseMailboxKey(key).Some?
    ensures var (h, s) := ParseMailboxKey(key).value;
            s < U64 && (key == MailboxSeqKey(h, s) <==> |key| == 4 + |h| + 21 && key[4 + |h| + 1] != PLUS)
  {
    var (h, s) := ParseMailboxKey(key).value;
    UnparseKey(key);
    var tail := key[4 + |h| + 1..];
    PrintedNumber(tail, s);
    if key == MailboxSeqKey(h, s) {
      assert Decimal(s, 20) == tail by {
        assert MailboxSeqKey(h, s)[4 + |h| + 1..] == Decimal(s, 20);
      }
    }
  }

  lemma SignedNumber(digits: bytes, plus: bool)
    requires |digits| > 0 && AllDigits(digits) && DecimalValue(digits) < U64
    ensures var tail := (if plus then [PLUS] else []) + digits;
            ParseU64(tail) == Some(DecimalValue(digits)) && UNDERSCORE !in tail
  {
    NoUnderscoreInDigits(digits);
    var tail := (if plus then [PLUS] else []) + digits;
    assert tail[if plus then 1 else 0..] == digits;
    hide DecimalValue;
  }

  /** The other spellings: any width that holds the number, with a plus sign or without. */
  lemma OtherSpellings(userHash: bytes, seqNo: nat, width: pos, plus: bool)
    requires seqNo < U64 && seqNo < Pow10(width)
    ensures var tail := (if plus then [PLUS] else []) + Decimal(seqNo, width);
            ParseMailboxKey(PREFIX + userHash + ([UNDERSCORE] + tail)) == Some((userHash, seqNo))
  {
    DecimalRoundTrip(seqNo, width);
    SignedNumber(Decimal(seqNo, width), plus);
    hide Decimal, DecimalValue, Pow10, AllDigits, ParseU64, ParseUserHash, LastUnderscore;
    SplitKey(userHash, (if plus then [PLUS] else []) + Decimal(seqNo, width));
  }

  lemma PrintedNumber(tail: bytes, s: nat)
    requires ParseU64(tail) == Some(s)
    ensures tail == Decimal(s, 20) <==> |tail| == 20 && tail[0] != PLUS
  {
    DecimalRoundTrip(s, 20);
    if |tail| == 20 && tail[0] != PLUS {
      DecimalOfValue(tail);
    }
  }

  // ── Envelopes ─────────────────────────────────────────────────────

  /** What a signature covers; None without 32 bytes of recipient hash. */
  function VerifyBuffer(payload: bytes, seqNo: nat, recipient: bytes): Option<bytes> {
    if |recipient| < 32 then None else Some(payload + (LE(seqNo, 8) + recipient[..32]))
  }

  /** The payload, the number in eight bytes, and the recipient. */
  lemma VerifyBufferLayout(payload: bytes, seqNo: nat, recipient: bytes)
    requires |recipient| == 32 && seqNo < U64
    ensures var b := VerifyBuffer(payload, seqNo, recipient);
            && b.Some? && |b.value| == |payload| + 40
            && b.value[..|payload|] == payload && FromLE(b.value[|payload|..|payload| + 8]) == seqNo
            && b.value[|payload| + 8..] == recipient
  {
    LERoundTrip(seqNo, 8);
    U64IsEightBytes();
    var b := VerifyBuffer(payload, seqNo, recipient).value;
    assert recipient[..32] == recipient;
    assert b[|payload|..|payload| + 8] == LE(seqNo, 8);
    hide LE, FromLE;
  }

  /** The buffer is the only one of its payload, number and recipient. */
  lemma VerifyBufferBinds(payload: bytes, seqNo: nat, recipient: bytes, payload': bytes, seqNo': nat, recipient': bytes)
    requires seqNo < U64 && seqNo' < U64
    requires VerifyBuffer(payload, seqNo, recipient).Some?
    requires VerifyBuffer(payload, seqNo, recipient) == VerifyBuffer(payload', seqNo', recipient')
    ensures payload == payload' && seqNo == seqNo' && recipient[..32] == recipient'[..32]
  {
    LERoundTrip(seqNo, 8);
    LERoundTrip(seqNo', 8);
    U64IsEightBytes();
    var tail, tail' := LE(seqNo, 8) + recipient[..32], LE(seqNo', 8) + recipient'[..32];
    var whole := payload + tail;
    assert whole == payload' + tail' && |payload| == |payload'|;
    assert whole[..|payload|] == payload && whole[..|payload|] == payload';
    assert whole[|payload|..] == tail && whole[|payload|..] == tail';
    assert tail[..8] == LE(seqNo, 8) && tail'[..8] == LE(seqNo', 8);
    assert tail[8..] == recipient[..32] && tail'[8..] == recipient'[..32];
  }

  lemma U64IsEightBytes()
    ensures Pow256(8) == U64
  {
    Widths();
    assert Pow256(8) == 256 * Pow256(7) == 0x1_0000 * Pow256(6) == 0x100_0000 * Pow256(5) == 0x1_0000_0000 * Pow256(4);
  }
}
