/** The admission of an NTP reply: `ntp` of prototypes/qualify_clock_sources.py, and the
    refusal controls of prototypes/qualify_clock_failures.py. Packet layout, short format and
    timestamp format are those of sections 6 and 7.3 of RFC 5905. */
module Ntp {
  type byte = b: int | 0 <= b < 256

  // ---------------------------------------------------------------- numbers as bytes

  function BigEndian(s: seq<byte>): nat {
    if s == [] then 0 else BigEndian(s[..|s| - 1]) * 256 + s[|s| - 1]
  }

  /** 256 to the power `k` */
  function Span(k: nat): (n: nat)
    ensures n > 0
  {
    if k == 0 then 1 else 256 * Span(k - 1)
  }

  lemma {:induction false} BigEndianInSpan(s: seq<byte>)
    ensures BigEndian(s) < Span(|s|)
  {
    if s != [] {
      BigEndianInSpan(s[..|s| - 1]);
    }
  }

  /** `n` in `k` bytes */
  function Bytes(n: nat, k: nat): (s: seq<byte>)
    requires n < Span(k)
    ensures |s| == k && BigEndian(s) == n
  {
    if k == 0 then [] else Bytes(n / 256, k - 1) + [n % 256]
  }

  /** At the first byte in which they differ, the one on the left is smaller. */
  predicate Before(a: seq<byte>, b: seq<byte>)
    requires |a| == |b|
  {
    a != [] && (a[0] < b[0] || (a[0] == b[0] && Before(a[1..], b[1..])))
  }

  lemma {:induction false} BigEndianStep(s: seq<byte>)
    requires s != []
    ensures BigEndian(s) == s[0] * Span(|s| - 1) + BigEndian(s[1..])
  {
    if |s| > 1 {
      var n := |s| - 1;
      BigEndianStep(s[..n]);
      assert s[..n][1..] == s[1..][..n - 1];
      assert s[1..][n - 1] == s[n];
      assert s[0] * Span(n) == s[0] * (256 * Span(n - 1)) == 256 * (s[0] * Span(n - 1));
    }
  }

  /** The order of the bytes is the order of the numbers. */
  lemma {:induction false} OrderOfBytes(a: seq<byte>, b: seq<byte>)
    requires |a| == |b|
    ensures Before(a, b) <==> BigEndian(a) < BigEndian(b)
    ensures a == b <==> BigEndian(a) == BigEndian(b)
  {
    if a != [] {
      BigEndianStep(a);
      BigEndianStep(b);
      BigEndianInSpan(a[1..]);
      BigEndianInSpan(b[1..]);
      OrderOfBytes(a[1..], b[1..]);
      var n := Span(|a| - 1);
      if a[0] < b[0] {
        Larger(a[0], b[0], n);
      } else if b[0] < a[0] {
        Larger(b[0], a[0], n);
      } else {
        assert a == [a[0]] + a[1..] && b == [b[0]] + b[1..];
      }
    }
  }

  lemma Larger(x: nat, y: nat, n: nat)
    requires x < y
    ensures x * n + n <= y * n
  {
    var d := y - x - 1;
    assert y * n == x * n + n + d * n;
  }

  // ---------------------------------------------------------------------- the fields

  const PLAIN: nat := 48
  const TWO_32: int := 0x1_0000_0000
  const UNIX_EPOCH: int := 2208988800

  function Leap(p: seq<byte>): int
    requires |p| == PLAIN
  {
    p[0] / 64
  }

  function Version(p: seq<byte>): int
    requires |p| == PLAIN
  {
    p[0] / 8 % 8
  }

  function Mode(p: seq<byte>): int
    requires |p| == PLAIN
  {
    p[0] % 8
  }

  function Unsigned(p: seq<byte>, offset: nat): int
    requires offset + 4 <= |p|
  {
    BigEndian(p[offset..offset + 4])
  }

  /** Two's complement. */
  function Signed(p: seq<byte>, offset: nat): int
    requires offset + 4 <= |p|
  {
    var n := Unsigned(p, offset);
    if n < TWO_32 / 2 then n else n - TWO_32
  }

  /** A timestamp as seconds of Unix time. */
  function Stamp(p: seq<byte>, offset: nat): real
    requires offset + 8 <= |p|
  {
    (Unsigned(p, offset) - UNIX_EPOCH) as real + Unsigned(p, offset + 4) as real / TWO_32 as real
  }

  function RootDelay(p: seq<byte>): real
    requires |p| == PLAIN
  {
    Signed(p, 4) as real / 65536.0
  }

  function RootDispersion(p: seq<byte>): real
    requires |p| == PLAIN
  {
    Unsigned(p, 8) as real / 65536.0
  }

  function Abs(x: real): real {
    if x < 0.0 then -x else x
  }

  function Zeros(n: nat): (s: seq<byte>)
    ensures |s| == n && forall i | 0 <= i < n :: s[i] == 0
  {
    seq(n, i => 0)
  }

  // ------------------------------------------------------------------- the admission

  datatype Refusal = NotPlain | Unsynchronized | OriginMismatch | Implausible

  datatype Reading = Reading(rtt: real, transmitted: real, low: real, high: real, stratum: int, leap: int, dispersion: real)

  datatype Answer = Admitted(reading: Reading) | Refused(refusal: Refusal)

  function Uncertainty(p: seq<byte>): real
    requires |p| == PLAIN
  {
    RootDispersion(p) + Abs(RootDelay(p)) / 2.0
  }

  predicate Synchronized(p: seq<byte>)
    requires |p| == PLAIN
  {
    Leap(p) != 3 && Version(p) in {3, 4} && Mode(p) == 4 && 1 <= p[1] <= 15
  }

  predicate Plausible(p: seq<byte>, rtt: real)
    requires |p| == PLAIN
  {
    && p[32..40] != Zeros(8) && p[40..48] != Zeros(8)
    && Stamp(p, 32) <= Stamp(p, 40) <= Stamp(p, 32) + rtt + 0.01
    && RootDispersion(p) <= 5.0 && Abs(RootDelay(p)) <= 10.0
  }

  function Admit(p: seq<byte>, token: seq<byte>, sent: real, received: real): Answer {
    var rtt := received - sent;
    if |p| != PLAIN then Refused(NotPlain)
    else if !Synchronized(p) then Refused(Unsynchronized)
    else if p[24..32] != token then Refused(OriginMismatch)
    else if !Plausible(p, rtt) then Refused(Implausible)
    else
      var tx := Stamp(p, 40);
      Admitted(Reading(rtt, tx, tx - Uncertainty(p), tx + rtt + Uncertainty(p), p[1], Leap(p), RootDispersion(p)))
  }

  /** The request, filled in place. */
  method Request(token: seq<byte>) returns (request: array<byte>)
    requires |token| == 8
    ensures fresh(request) && request[..] == [0x23] + Zeros(39) + token
  {
    request := new byte[48](_ => 0);
    request[0] := 0x23;
    assert request[..40] == [0x23] + Zeros(39);
    Overwrite(request, 40, token);
  }

  /** Overwrites `a` with `s` from `at` on. */
  method Overwrite(a: array<byte>, at: nat, s: seq<byte>)
    requires at + |s| <= a.Length
    modifies a
    ensures a[..] == old(a[..at]) + s + old(a[at + |s|..])
  {
    for i := 0 to |s|
      invariant a[..at] == old(a[..at])
      invariant a[at..at + i] == s[..i]
      invariant a[at + i..] == old(a[at + i..])
    {
      a[at + i] := s[i];
      assert a[at..at + i + 1] == a[at..at + i] + [s[i]];
    }
    assert a[..] == a[..at] + a[at..at + |s|] + a[at + |s|..];
  }

  // ------------------------------------------------------------------ the timestamps

  function Timestamp(p: seq<byte>, offset: nat): int
    requires offset + 8 <= |p|
  {
    BigEndian(p[offset..offset + 8])
  }

  /** Eight bytes are two times four. */
  lemma TwoHalves(p: seq<byte>, offset: nat)
    requires offset + 8 <= |p|
    ensures Timestamp(p, offset) == Unsigned(p, offset) * TWO_32 + Unsigned(p, offset + 4)
  {
    var s := p[offset..offset + 8];
    assert s[..4] == p[offset..offset + 4] && s[4..] == p[offset + 4..offset + 8];
    LastFour(s);
    assert s[4..] == [s[4], s[5], s[6], s[7]];
    LastFour(s[4..]);
  }

  lemma LastFour(s: seq<byte>)
    requires |s| >= 4
    ensures var n := |s| - 4;
      BigEndian(s) == BigEndian(s[..n]) * TWO_32 + 0x100_0000 * (s[n] as int) + 0x1_0000 * (s[n + 1] as int) + 0x100 * (s[n + 2] as int) + s[n + 3] as int
  {
    var n := |s| - 4;
    var a, b, c := s[..n + 3], s[..n + 2], s[..n + 1];
    assert a[..n + 2] == b && b[..n + 1] == c && c[..n] == s[..n];
    assert BigEndian(c) == BigEndian(s[..n]) * 256 + s[n];
    assert BigEndian(b) == BigEndian(c) * 256 + s[n + 1];
    assert BigEndian(a) == BigEndian(b) * 256 + s[n + 2];
  }

  lemma StampIsTimestamp(p: seq<byte>, offset: nat)
    requires offset + 8 <= |p|
    ensures Stamp(p, offset) == Timestamp(p, offset) as real / TWO_32 as real - UNIX_EPOCH as real
  {
    TwoHalves(p, offset);
  }

  /** Two timestamps compare as seconds just as they compare as 64-bit numbers, and just as
      their bytes compare from the left. */
  lemma StampOrder(p: seq<byte>, i: nat, j: nat)
    requires i + 8 <= |p| && j + 8 <= |p|
    ensures Stamp(p, i) < Stamp(p, j) <==> Timestamp(p, i) < Timestamp(p, j)
    ensures Stamp(p, i) < Stamp(p, j) <==> Before(p[i..i + 8], p[j..j + 8])
    ensures Stamp(p, i) == Stamp(p, j) <==> p[i..i + 8] == p[j..j + 8]
  {
    StampIsTimestamp(p, i);
    StampIsTimestamp(p, j);
    OrderOfBytes(p[i..i + 8], p[j..j + 8]);
    assert Timestamp(p, i) < Timestamp(p, j) <==> Timestamp(p, i) as real < Timestamp(p, j) as real;
  }

  // -------------------------------------------------------------------- the interval

  /** The time at receipt is `utc`, when the stamp is wrong by `error` and was set while the
      exchange was under way, `ago` before the reply was received. */
  predicate Explains(r: Reading, bound: real, utc: real, error: real, ago: real) {
    Abs(error) <= bound && 0.0 <= ago <= r.rtt && utc == r.transmitted + error + ago
  }

  /** The interval holds exactly the times that the reply allows: none that is possible is
      left out, and none that is in it is impossible. */
  lemma IntervalIsExact(p: seq<byte>, token: seq<byte>, sent: real, received: real, utc: real)
    requires sent <= received && Admit(p, token, sent, received).Admitted?
    ensures var r := Admit(p, token, sent, received).reading;
      r.low <= utc <= r.high <==> exists error, ago :: Explains(r, Uncertainty(p), utc, error, ago)
  {
    var r := Admit(p, token, sent, received).reading;
    var bound := Uncertainty(p);
    if r.low <= utc <= r.high {
      var offset := utc - r.transmitted;
      var ago := if offset < bound then 0.0 else offset - bound;
      var ago' := if ago > r.rtt then r.rtt else ago;
      assert Explains(r, bound, utc, offset - ago', ago');
    }
  }

  /** The interval is as wide as the exchange took, plus twice the root distance, which the
      admission bounds by ten seconds. */
  lemma IntervalWidth(p: seq<byte>, token: seq<byte>, sent: real, received: real)
    requires Admit(p, token, sent, received).Admitted?
    ensures var r := Admit(p, token, sent, received).reading;
      && r.high - r.low == r.rtt + 2.0 * RootDispersion(p) + Abs(RootDelay(p))
      && 0.0 <= Uncertainty(p) <= 10.0
      && r.rtt >= -0.01
  {
    assert RootDispersion(p) >= 0.0;
  }

  // ---------------------------------------------------------------- the header format

  /** The fields of a header, as in figure 8 of RFC 5905. */
  datatype Header = Header(
    leap: int, version: int, mode: int, stratum: byte, poll: byte, precision: byte,
    rootDelay: int, rootDispersion: int, reference: seq<byte>,
    origin: seq<byte>, receive: int, transmit: int)
  {
    predicate Valid() {
      && 0 <= leap < 4 && 0 <= version < 8 && 0 <= mode < 8
      && -TWO_32 / 2 <= rootDelay < TWO_32 / 2 && 0 <= rootDispersion < TWO_32
      && |reference| == 12 && |origin| == 8
      && 0 <= receive < TWO_32 * TWO_32 && 0 <= transmit < TWO_32 * TWO_32
    }

    /** What `Admit` asks of a header, in the terms of its fields. */
    predicate Admissible(token: seq<byte>, rtt: real) {
      && leap != 3 && (version == 3 || version == 4) && mode == 4 && 1 <= stratum <= 15
      && origin == token
      && 0 < receive <= transmit
      && (transmit - receive) as real <= (rtt + 0.01) * TWO_32 as real
      && rootDispersion <= 5 * 65536 && -10 * 65536 <= rootDelay <= 10 * 65536
    }
  }

  lemma Spans()
    ensures Span(4) == TWO_32 && Span(8) == TWO_32 * TWO_32
  {
    assert Span(2) == 256 * 256 && Span(4) == 256 * 256 * Span(2);
    assert Span(6) == 256 * 256 * Span(4) && Span(8) == 256 * 256 * Span(6);
  }

  function Lead(h: Header): (s: seq<byte>)
    requires h.Valid()
    ensures |s| == 4
  {
    [h.leap * 64 + h.version * 8 + h.mode, h.stratum, h.poll, h.precision]
  }

  function Encode(h: Header): (p: seq<byte>)
    requires h.Valid()
    ensures |p| == PLAIN
  {
    Spans();
    Lead(h)
    + Bytes(if h.rootDelay < 0 then h.rootDelay + TWO_32 else h.rootDelay, 4)
    + Bytes(h.rootDispersion, 4)
    + h.reference + h.origin + Bytes(h.receive, 8) + Bytes(h.transmit, 8)
  }

  lemma Slices(a: seq<byte>, b: seq<byte>, c: seq<byte>, from: nat, to: nat)
    requires from == |a| && to == |a| + |b|
    ensures (a + b + c)[from..to] == b
  {
  }

  lemma LeadRead(leap: int, version: int, mode: int)
    requires 0 <= leap < 4 && 0 <= version < 8 && 0 <= mode < 8
    ensures var b := leap * 64 + version * 8 + mode;
      b / 64 == leap && b / 8 % 8 == version && b % 8 == mode
  {
    var b := leap * 64 + version * 8 + mode;
    assert b / 8 == leap * 8 + version;
  }

  lemma RootSlices(a: seq<byte>, b: seq<byte>, c: seq<byte>, d: seq<byte>, e: seq<byte>, f: seq<byte>, g: seq<byte>)
    requires |a| == |b| == |c| == 4
    ensures (a + b + c + d + e + f + g)[4..8] == b && (a + b + c + d + e + f + g)[8..12] == c
  {
  }

  /** The root delay and dispersion. */
  lemma RootRead(h: Header)
    requires h.Valid()
    ensures Signed(Encode(h), 4) == h.rootDelay && Unsigned(Encode(h), 8) == h.rootDispersion
  {
    Spans();
    var n := if h.rootDelay < 0 then h.rootDelay + TWO_32 else h.rootDelay;
    RootSlices(Lead(h), Bytes(n, 4), Bytes(h.rootDispersion, 4), h.reference, h.origin, Bytes(h.receive, 8), Bytes(h.transmit, 8));
  }

  /** The four numbers in front. */
  lemma FrontRead(h: Header)
    requires h.Valid()
    ensures var p := Encode(h);
      Leap(p) == h.leap && Version(p) == h.version && Mode(p) == h.mode && p[1] == h.stratum
  {
    var p := Encode(h);
    assert p[0] == Lead(h)[0] && p[1] == Lead(h)[1];
    LeadRead(h.leap, h.version, h.mode);
  }

  /** Every field that is read from an encoded header is the one that was written. */
  lemma FieldsRead(h: Header)
    requires h.Valid()
    ensures var p := Encode(h);
      && Leap(p) == h.leap && Version(p) == h.version && Mode(p) == h.mode && p[1] == h.stratum
      && Signed(p, 4) == h.rootDelay && Unsigned(p, 8) == h.rootDispersion
      && p[24..32] == h.origin && Timestamp(p, 32) == h.receive && Timestamp(p, 40) == h.transmit
  {
    FrontRead(h);
    RootRead(h);
    Spans();
    var p := Encode(h);
    var front := p[..24];
    var receive, transmit := Bytes(h.receive, 8), Bytes(h.transmit, 8);
    assert p == front + h.origin + (receive + transmit);
    assert p == (front + h.origin) + receive + transmit;
    Slices(front, h.origin, receive + transmit, 24, 32);
    Slices(front + h.origin, receive, transmit, 32, 40);
    assert p[40..48] == transmit;
  }

  lemma ZeroTimestamp(p: seq<byte>, offset: nat)
    requires offset + 8 <= |p|
    ensures p[offset..offset + 8] == Zeros(8) <==> Timestamp(p, offset) == 0
  {
    OrderOfBytes(p[offset..offset + 8], Zeros(8));
    ZerosAreZero(8);
  }

  lemma {:induction false} ZerosAreZero(n: nat)
    ensures BigEndian(Zeros(n)) == 0
  {
    if n > 0 {
      assert Zeros(n)[..n - 1] == Zeros(n - 1);
      ZerosAreZero(n - 1);
    }
  }

  /** A header that was sent is admitted just if its fields are admissible. */
  lemma AdmittedIffAdmissible(h: Header, token: seq<byte>, sent: real, received: real)
    requires h.Valid()
    ensures Admit(Encode(h), token, sent, received).Admitted? <==> h.Admissible(token, received - sent)
  {
    var p := Encode(h);
    FieldsRead(h);
    ZeroTimestamp(p, 32);
    ZeroTimestamp(p, 40);
    PlausibleFields(p, received - sent);
  }

  /** The bounds on stamps and root quality, in whole units. */
  lemma PlausibleFields(p: seq<byte>, rtt: real)
    requires |p| == PLAIN
    ensures Stamp(p, 32) <= Stamp(p, 40) <==> Timestamp(p, 32) <= Timestamp(p, 40)
    ensures Stamp(p, 40) <= Stamp(p, 32) + rtt + 0.01 <==>
            (Timestamp(p, 40) - Timestamp(p, 32)) as real <= (rtt + 0.01) * TWO_32 as real
    ensures RootDispersion(p) <= 5.0 <==> Unsigned(p, 8) <= 5 * 65536
    ensures Abs(RootDelay(p)) <= 10.0 <==> -10 * 65536 <= Signed(p, 4) <= 10 * 65536
  {
    StampIsTimestamp(p, 32);
    StampIsTimestamp(p, 40);
  }

  // ------------------------------------------------------------------- every packet

  lemma {:induction false} BytesBack(s: seq<byte>)
    requires BigEndian(s) < Span(|s|)
    ensures Bytes(BigEndian(s), |s|) == s
  {
    if s != [] {
      var n := |s| - 1;
      BigEndianInSpan(s[..n]);
      BytesBack(s[..n]);
      assert BigEndian(s) / 256 == BigEndian(s[..n]) && BigEndian(s) % 256 == s[n];
      assert s == s[..n] + [s[n]];
    }
  }

  /** The header that a packet encodes. */
  function HeaderOf(p: seq<byte>): Header
    requires |p| == PLAIN
  {
    Header(Leap(p), Version(p), Mode(p), p[1], p[2], p[3], Signed(p, 4), Unsigned(p, 8), p[12..24], p[24..32],
           Timestamp(p, 32), Timestamp(p, 40))
  }

  lemma NumbersInRange(p: seq<byte>)
    requires |p| == PLAIN
    ensures HeaderOf(p).Valid()
  {
    Spans();
    BigEndianInSpan(p[4..8]);
    BigEndianInSpan(p[8..12]);
    BigEndianInSpan(p[32..40]);
    BigEndianInSpan(p[40..48]);
  }

  lemma LeadBack(p: seq<byte>)
    requires |p| == PLAIN
    ensures HeaderOf(p).Valid() && Lead(HeaderOf(p)) == p[..4]
  {
    NumbersInRange(p);
    var b: int := p[0];
    assert b / 64 == b / 8 / 8;
    assert b / 64 * 64 + b / 8 % 8 * 8 + b % 8 == b;
  }

  lemma NumberBack(p: seq<byte>, from: nat, to: nat)
    requires from <= to <= |p|
    ensures BigEndian(p[from..to]) < Span(to - from) && Bytes(BigEndian(p[from..to]), to - from) == p[from..to]
  {
    BigEndianInSpan(p[from..to]);
    BytesBack(p[from..to]);
  }

  /** Every plain packet is the encoding of a header: no reply is left out. */
  lemma EveryPacketIsEncoded(p: seq<byte>)
    requires |p| == PLAIN
    ensures HeaderOf(p).Valid() && Encode(HeaderOf(p)) == p
  {
    LeadBack(p);
    Spans();
    NumberBack(p, 4, 8);
    NumberBack(p, 8, 12);
    NumberBack(p, 32, 40);
    NumberBack(p, 40, 48);
    var h := HeaderOf(p);
    assert (if h.rootDelay < 0 then h.rootDelay + TWO_32 else h.rootDelay) == Unsigned(p, 4);
    assert p == p[..4] + p[4..8] + p[8..12] + p[12..24] + p[24..32] + p[32..40] + p[40..48];
  }

  /** Any plain reply at all is admitted just if the fields of its header are admissible. */
  lemma ReplyAdmittedIffAdmissible(p: seq<byte>, token: seq<byte>, sent: real, received: real)
    ensures Admit(p, token, sent, received).Admitted? <==> |p| == PLAIN && HeaderOf(p).Admissible(token, received - sent)
  {
    if |p| == PLAIN {
      EveryPacketIsEncoded(p);
      AdmittedIffAdmissible(HeaderOf(p), token, sent, received);
    }
  }

  /** What is read of an admitted reply: the time of transmission is its last stamp, from 1900 in
      units of 2 to the power -32, as seconds of Unix time; and the interval goes from it by the root
      distance to the left, and by the round trip and the root distance to the right. */
  lemma ReadingTells(h: Header, token: seq<byte>, sent: real, received: real)
    requires h.Valid() && Admit(Encode(h), token, sent, received).Admitted?
    ensures var r := Admit(Encode(h), token, sent, received).reading;
      var distance := h.rootDispersion as real / 65536.0 + Abs(h.rootDelay as real) / 131072.0;
      && r.transmitted == h.transmit as real / 4294967296.0 - 2208988800.0
      && r.rtt == received - sent
      && r.low == r.transmitted - distance && r.high == r.transmitted + r.rtt + distance
      && r.stratum == h.stratum && r.leap == h.leap && r.dispersion == h.rootDispersion as real / 65536.0
  {
    FieldsRead(h);
    StampIsTimestamp(Encode(h), 40);
    AbsHalf(h.rootDelay as real);
  }

  lemma AbsHalf(x: real)
    ensures Abs(x / 65536.0) / 2.0 == Abs(x) / 131072.0
  {
  }

  /** Why a reply is refused, in the order of the checks. */
  lemma RefusedIff(h: Header, token: seq<byte>, sent: real, received: real)
    requires h.Valid()
    ensures var answer := Admit(Encode(h), token, sent, received);
      var synchronized := h.leap != 3 && (h.version == 3 || h.version == 4) && h.mode == 4 && 1 <= h.stratum <= 15;
      && (answer == Refused(Unsynchronized) <==> !synchronized)
      && (answer == Refused(OriginMismatch) <==> synchronized && h.origin != token)
      && (answer == Refused(Implausible) <==> synchronized && h.origin == token && !h.Admissible(token, received - sent))
  {
    FieldsRead(h);
    AdmittedIffAdmissible(h, token, sent, received);
  }

  // ------------------------------------------------------------ the refusal controls

  datatype Control = Short | Unsync | WrongOrigin

  /** A control's reply, built from the request in place; only a truncated one is a new array. */
  method ControlReply(kind: Control, request: array<byte>) returns (packet: array<byte>)
    requires request.Length == 48
    ensures fresh(packet) && packet[..] == Reply(kind, request[..])
  {
    packet := new byte[48](_ => 0);
    packet[0], packet[1] := 0x24, 1;
    Overwrite(packet, 24, request[40..48]);
    assert packet[..] == Faultless(request[..]);
    match kind
    case Short =>
      var all := packet[..];
      packet := new byte[10](i requires 0 <= i < 10 => all[i]);
      assert packet[..] == all[..10];
    case Unsync =>
      packet[0] := 0xe4;
    case WrongOrigin =>
      Overwrite(packet, 24, Zeros(8));
      assert packet[..] == Reply(kind, request[..]);
  }

  /** The reply before its fault is put in. */
  function Faultless(request: seq<byte>): (p: seq<byte>)
    requires |request| == 48
    ensures |p| == PLAIN
  {
    [0x24, 1] + Zeros(22) + request[40..48] + Zeros(16)
  }

  function Reply(kind: Control, request: seq<byte>): seq<byte>
    requires |request| == 48
  {
    match kind
    case Short => Faultless(request)[..10]
    case Unsync => Faultless(request)[0 := 0xe4]
    case WrongOrigin => [0x24, 1] + Zeros(46)
  }

  /** The bytes of each control: the request's token as origin, and its own fault. */
  lemma ReplyIs(kind: Control, request: seq<byte>)
    requires |request| == 48
    ensures var p := Reply(kind, request);
      && |p| == (if kind.Short? then 10 else 48)
      && p[0] == (if kind.Unsync? then 0xe4 else 0x24) && p[1] == 1
      && (forall i | 2 <= i < |p| && !(24 <= i < 32) :: p[i] == 0)
      && (!kind.Short? ==> p[24..32] == if kind.WrongOrigin? then Zeros(8) else request[40..48])
  {
    var q := Faultless(request);
    assert q[24..32] == request[40..48];
    assert forall i | 2 <= i < 48 && !(24 <= i < 32) :: q[i] == 0;
    if kind.WrongOrigin? {
      assert Reply(kind, request)[24..32] == Zeros(8);
    } else if kind.Unsync? {
      assert Reply(kind, request)[24..32] == q[24..32];
    }
  }

  /** Every control is refused, and for its own fault, except that a wrong origin is not
      noticed when the random token is all zero; the zero timestamps refuse that reply. */
  lemma ControlsRefused(kind: Control, request: seq<byte>, token: seq<byte>, sent: real, received: real)
    requires |token| == 8 && request == [0x23] + Zeros(39) + token
    ensures Admit(Reply(kind, request), token, sent, received) ==
              Refused(if kind.Short? then NotPlain else if kind.Unsync? then Unsynchronized
                      else if token == Zeros(8) then Implausible else OriginMismatch)
  {
    var p := Reply(kind, request);
    assert kind.WrongOrigin? ==> p[24..32] == Zeros(8) && p[32..40] == Zeros(8);
  }

  /** The reply without a fault is refused too, for its zero timestamps: a control that
      expects no more than a refusal would not notice if its own check were missing. */
  lemma FaultlessRefused(request: seq<byte>, token: seq<byte>, sent: real, received: real)
    requires |token| == 8 && request == [0x23] + Zeros(39) + token
    ensures Admit(Faultless(request), token, sent, received) == Refused(Implausible)
  {
    var p := Faultless(request);
    assert request[40..48] == token;
    assert p[24..32] == token && p[32..40] == Zeros(8);
  }
}
