/**
 * The packet tags of the key post-processing protocol, one per protocol
 * step, with their fixed-layout encodings. Doubles are carried as their
 * eight-octet bit patterns; their numeric value plays no part here.
 */
module Q3pTag {
  import opened Results
  import opened Bytes

  /** A double, carried as its bit pattern. */
  type Float64 = U64

  /** A tag of each protocol step with the fields it carries (model/q3p-tag.h). */
  datatype Tag =
    | TimeSync(start: I64, stop: I64, pulses: U32)
    | PulseLocating(pulseNumber: U32, ms: Float64, esMs: Float64, mw: Float64, ewMw: Float64, mv: Float64, evMv: Float64)
    | BasisSifting
    | KeySifting
    | ErrorCorrection
    | PrivacyAmplification(secureBits: U64, totalBytes: U64)

  /** The tag classes, without their fields. */
  datatype Kind = TimeSyncKind | PulseLocatingKind | BasisSiftingKind | KeySiftingKind | ErrorCorrectionKind | PrivacyAmplificationKind

  /** The class of a tag. */
  function KindOf(t: Tag): Kind
  {
    match t
    case TimeSync(_, _, _) => TimeSyncKind
    case PulseLocating(_, _, _, _, _, _, _) => PulseLocatingKind
    case BasisSifting => BasisSiftingKind
    case KeySifting => KeySiftingKind
    case ErrorCorrection => ErrorCorrectionKind
    case PrivacyAmplification(_, _) => PrivacyAmplificationKind
  }

  /**
   * The encoded size each class reports (model/q3p-tag.cc:97-102, 317-322,
   * 402-407, 462-467, 522-527, 608-613).
   */
  function GetSerializedSize(k: Kind): (n: nat)
    ensures k == TimeSyncKind ==> n == 8 + 8 + 4
    ensures k == PulseLocatingKind ==> n == 4 + 6 * 8
    ensures k == PrivacyAmplificationKind ==> n == 8 + 8
    ensures k in {BasisSiftingKind, KeySiftingKind, ErrorCorrectionKind} ==> n == 0
  {
    match k
    case TimeSyncKind => 20
    case PulseLocatingKind => 52
    case PrivacyAmplificationKind => 16
    case _ => 0
  }

  /** Several 64-bit values, one after another. */
  function WriteU64s(xs: seq<U64>): (bs: seq<Byte>)
    ensures |bs| == 8 * |xs|
  {
    if |xs| == 0 then [] else WriteU64(xs[0]) + WriteU64s(xs[1..])
  }

  /** Reads n 64-bit values, or fails when fewer than 8n octets remain. */
  function ReadU64s(bs: seq<Byte>, n: nat): (r: Option<Read<seq<U64>>>)
    ensures r.Some? <==> |bs| >= 8 * n
    ensures r.Some? ==> |r.value.value| == n && bs == WriteU64s(r.value.value) + r.value.rest
  {
    if n == 0 then Some(Read([], bs))
    else
      match ReadU64(bs)
      case None => None
      case Some(head) =>
        match ReadU64s(head.rest, n - 1)
        case None => None
        case Some(tail) =>
          assert ([head.value] + tail.value)[1..] == tail.value;
          Some(Read([head.value] + tail.value, tail.rest))
  }

  /** Reading back written 64-bit values returns them in order and leaves the rest. */
  lemma {:induction false} ReadU64sWrite(xs: seq<U64>, rest: seq<Byte>)
    ensures ReadU64s(WriteU64s(xs) + rest, |xs|) == Some(Read(xs, rest))
    decreases |xs|
  {
    if |xs| > 0 {
      var tailBytes := WriteU64s(xs[1..]) + rest;
      assert WriteU64s(xs) + rest == WriteU64(xs[0]) + tailBytes;
      ReadU64Write(xs[0], tailBytes);
      ReadU64sWrite(xs[1..], rest);
      var bs := WriteU64s(xs) + rest;
      assert ReadU64(bs) == Some(Read(xs[0], tailBytes));
      assert ReadU64s(tailBytes, |xs| - 1) == Some(Read(xs[1..], rest));
      assert [xs[0]] + xs[1..] == xs;
      assert ReadU64s(bs, |xs|) == Some(Read([xs[0]] + xs[1..], rest));
    } else {
      assert WriteU64s(xs) + rest == rest;
    }
  }

  /**
   * Writes a tag's fields in declaration order of its encoding
   * (model/q3p-tag.cc:104-111, 324-337, 409-413, 469-473, 529-533, 615-621):
   * start, stop and pulses; the pulse count and the six statistics in the
   * order Ms, Mw, Mv, EsMs, EwMw, EvMv; nothing for the three field-less
   * steps; the secure bits and the total bytes.
   */
  function Serialize(t: Tag): (bs: seq<Byte>)
    ensures |bs| == GetSerializedSize(KindOf(t))
  {
    match t
    case TimeSync(start, stop, pulses) => WriteU64(I64ToU64(start)) + WriteU64(I64ToU64(stop)) + WriteU32(pulses)
    case PulseLocating(p, ms, esMs, mw, ewMw, mv, evMv) => WriteU32(p) + WriteU64s([ms, mw, mv, esMs, ewMw, evMv])
    case BasisSifting => []
    case KeySifting => []
    case ErrorCorrection => []
    case PrivacyAmplification(secure, total) => WriteU64(secure) + WriteU64(total)
  }

  /** Reads a time-synchronisation tag: start, stop, pulses (model/q3p-tag.cc:113-120). */
  function ReadTimeSync(bs: seq<Byte>): (r: Option<Read<Tag>>)
    ensures r.Some? <==> |bs| >= 20
    ensures r.Some? ==> r.value.value.TimeSync? && bs == Serialize(r.value.value) + r.value.rest
  {
    match ReadU64(bs)
    case None => None
    case Some(a) =>
      match ReadU64(a.rest)
      case None => None
      case Some(b) =>
        match ReadU32(b.rest)
        case None => None
        case Some(c) =>
          SignedRoundTrip(U64ToI64(a.value), a.value);
          SignedRoundTrip(U64ToI64(b.value), b.value);
          Some(Read(TimeSync(U64ToI64(a.value), U64ToI64(b.value), c.value), c.rest))
  }

  /** Reads a pulse-locating tag: the count, then Ms, Mw, Mv, EsMs, EwMw, EvMv (model/q3p-tag.cc:339-352). */
  function ReadPulseLocating(bs: seq<Byte>): (r: Option<Read<Tag>>)
    ensures r.Some? <==> |bs| >= 52
    ensures r.Some? ==> r.value.value.PulseLocating? && bs == Serialize(r.value.value) + r.value.rest
  {
    match ReadU32(bs)
    case None => None
    case Some(p) =>
      match ReadU64s(p.rest, 6)
      case None => None
      case Some(f) =>
        var v := f.value;
        assert [v[0], v[1], v[2], v[3], v[4], v[5]] == v;
        Some(Read(PulseLocating(p.value, v[0], v[3], v[1], v[4], v[2], v[5]), f.rest))
  }

  /** Reads a privacy-amplification tag: secure bits, then total bytes (model/q3p-tag.cc:623-629). */
  function ReadPrivacyAmplification(bs: seq<Byte>): (r: Option<Read<Tag>>)
    ensures r.Some? <==> |bs| >= 16
    ensures r.Some? ==> r.value.value.PrivacyAmplification? && bs == Serialize(r.value.value) + r.value.rest
  {
    match ReadU64(bs)
    case None => None
    case Some(a) =>
      match ReadU64(a.rest)
      case None => None
      case Some(b) => Some(Read(PrivacyAmplification(a.value, b.value), b.rest))
  }

  /**
   * Reads a tag of a known class back in the order it was written
   * (model/q3p-tag.cc:113-120, 339-352, 415-419, 475-479, 535-539, 623-629);
   * a buffer shorter than the class's size has no tag to read.
   */
  function Deserialize(k: Kind, bs: seq<Byte>): (r: Option<Read<Tag>>)
    ensures r.Some? <==> |bs| >= GetSerializedSize(k)
    ensures r.Some? ==> KindOf(r.value.value) == k && bs == Serialize(r.value.value) + r.value.rest
  {
    match k
    case TimeSyncKind => ReadTimeSync(bs)
    case PulseLocatingKind => ReadPulseLocating(bs)
    case BasisSiftingKind => Some(Read(BasisSifting, bs))
    case KeySiftingKind => Some(Read(KeySifting, bs))
    case ErrorCorrectionKind => Some(Read(ErrorCorrection, bs))
    case PrivacyAmplificationKind => ReadPrivacyAmplification(bs)
  }

  /** Reading a written tag of its own class returns it and leaves the rest of the buffer. */
  lemma RoundTrip(t: Tag, rest: seq<Byte>)
    ensures Deserialize(KindOf(t), Serialize(t) + rest) == Some(Read(t, rest))
  {
    match t
    case TimeSync(_, _, _) => TimeSyncRoundTrip(t, rest);
    case PulseLocating(_, _, _, _, _, _, _) => PulseLocatingRoundTrip(t, rest);
    case BasisSifting => assert Serialize(t) + rest == rest;
    case KeySifting => assert Serialize(t) + rest == rest;
    case ErrorCorrection => assert Serialize(t) + rest == rest;
    case PrivacyAmplification(_, _) => PrivacyAmplificationRoundTrip(t, rest);
  }

  /** The time-synchronisation round trip. */
  lemma TimeSyncRoundTrip(t: Tag, rest: seq<Byte>)
    requires t.TimeSync?
    ensures ReadTimeSync(Serialize(t) + rest) == Some(Read(t, rest))
  {
    var start := I64ToU64(t.start);
    var stop := I64ToU64(t.stop);
    var tail := WriteU32(t.pulses) + rest;
    assert Serialize(t) + rest == WriteU64(start) + (WriteU64(stop) + tail);
    ReadU64Write(start, WriteU64(stop) + tail);
    ReadU64Write(stop, tail);
    ReadU32Write(t.pulses, rest);
    SignedRoundTrip(t.start, 0);
    SignedRoundTrip(t.stop, 0);
  }

  /** The pulse-locating round trip. */
  lemma PulseLocatingRoundTrip(t: Tag, rest: seq<Byte>)
    requires t.PulseLocating?
    ensures ReadPulseLocating(Serialize(t) + rest) == Some(Read(t, rest))
  {
    var fields := [t.ms, t.mw, t.mv, t.esMs, t.ewMw, t.evMv];
    assert Serialize(t) + rest == WriteU32(t.pulseNumber) + (WriteU64s(fields) + rest);
    ReadU32Write(t.pulseNumber, WriteU64s(fields) + rest);
    ReadU64sWrite(fields, rest);
  }

  /** The privacy-amplification round trip. */
  lemma PrivacyAmplificationRoundTrip(t: Tag, rest: seq<Byte>)
    requires t.PrivacyAmplification?
    ensures ReadPrivacyAmplification(Serialize(t) + rest) == Some(Read(t, rest))
  {
    assert Serialize(t) + rest == WriteU64(t.secureBits) + (WriteU64(t.totalBytes) + rest);
    ReadU64Write(t.secureBits, WriteU64(t.totalBytes) + rest);
    ReadU64Write(t.totalBytes, rest);
  }

  /** The pulse-locating layout: the count first, then each statistic at its own offset. */
  lemma PulseLocatingLayout(t: Tag)
    requires t.PulseLocating?
    ensures Serialize(t)[..4] == WriteU32(t.pulseNumber)
    ensures Serialize(t)[4..12] == WriteU64(t.ms)
    ensures Serialize(t)[12..20] == WriteU64(t.mw)
    ensures Serialize(t)[20..28] == WriteU64(t.mv)
    ensures Serialize(t)[28..36] == WriteU64(t.esMs)
    ensures Serialize(t)[36..44] == WriteU64(t.ewMw)
    ensures Serialize(t)[44..52] == WriteU64(t.evMv)
  {
    var bs := Serialize(t);
    var fields := [t.ms, t.mw, t.mv, t.esMs, t.ewMw, t.evMv];
    var w := WriteU64s(fields);
    assert bs == WriteU32(t.pulseNumber) + w;
    assert w == WriteU64(t.ms) + WriteU64s(fields[1..]);
    assert WriteU64s(fields[1..]) == WriteU64(t.mw) + WriteU64s(fields[2..]);
    assert WriteU64s(fields[2..]) == WriteU64(t.mv) + WriteU64s(fields[3..]);
    assert WriteU64s(fields[3..]) == WriteU64(t.esMs) + WriteU64s(fields[4..]);
    assert WriteU64s(fields[4..]) == WriteU64(t.ewMw) + WriteU64s(fields[5..]);
    assert WriteU64s(fields[5..]) == WriteU64(t.evMv) + WriteU64s(fields[6..]);
  }

  /** The time-synchronisation layout: start, then stop, then the pulse count. */
  lemma TimeSyncLayout(t: Tag)
    requires t.TimeSync?
    ensures Serialize(t)[..8] == WriteU64(I64ToU64(t.start))
    ensures Serialize(t)[8..16] == WriteU64(I64ToU64(t.stop))
    ensures Serialize(t)[16..] == WriteU32(t.pulses)
  {
  }

  /** Microseconds per second. */
  const MICROS: real := 1000000.0

  /** A time in seconds as whole microseconds, truncated toward zero. */
  function Micros(t: real): (us: int)
    ensures t >= 0.0 ==> us >= 0 && us as real <= t * MICROS < us as real + 1.0
    ensures t < 0.0 ==> us <= 0 && us as real - 1.0 < t * MICROS <= us as real
  {
    var x := t * MICROS;
    if x >= 0.0 then x.Floor else -((-x).Floor)
  }

  /** A time that fits the tag's signed 64-bit microsecond fields. */
  predicate Representable(t: real) {
    -0x8000_0000_0000_0000 <= Micros(t) < 0x8000_0000_0000_0000
  }

  /** Sets the start time, kept in whole microseconds (model/q3p-tag.cc:33-37). */
  function SetStartTime(tag: Tag, t: real): (r: Tag)
    requires tag.TimeSync? && Representable(t)
    ensures r.TimeSync? && r.start == Micros(t) && r.stop == tag.stop && r.pulses == tag.pulses
  {
    tag.(start := Micros(t))
  }

  /** Sets the stop time, kept in whole microseconds (model/q3p-tag.cc:39-43). */
  function SetStopTime(tag: Tag, t: real): (r: Tag)
    requires tag.TimeSync? && Representable(t)
    ensures r.TimeSync? && r.stop == Micros(t) && r.start == tag.start && r.pulses == tag.pulses
  {
    tag.(stop := Micros(t))
  }

  /** The start time in seconds (model/q3p-tag.cc:51-55). */
  function GetStartTime(tag: Tag): real
    requires tag.TimeSync?
  {
    tag.start as real / MICROS
  }

  /** The stop time in seconds (model/q3p-tag.cc:57-61). */
  function GetStopTime(tag: Tag): real
    requires tag.TimeSync?
  {
    tag.stop as real / MICROS
  }

  /**
   * A time read back differs from the time set by less than a microsecond,
   * toward zero; a time read back is set again unchanged.
   */
  lemma TimeTruncation(tag: Tag, t: real)
    requires tag.TimeSync? && Representable(t)
    ensures t >= 0.0 ==> GetStartTime(SetStartTime(tag, t)) <= t < GetStartTime(SetStartTime(tag, t)) + 1.0 / MICROS
    ensures t < 0.0 ==> GetStartTime(SetStartTime(tag, t)) - 1.0 / MICROS < t <= GetStartTime(SetStartTime(tag, t))
    ensures t >= 0.0 ==> GetStopTime(SetStopTime(tag, t)) <= t < GetStopTime(SetStopTime(tag, t)) + 1.0 / MICROS
    ensures SetStartTime(tag, GetStartTime(tag)) == tag
    ensures SetStopTime(tag, GetStopTime(tag)) == tag
  {
    MicrosOfWhole(tag.start);
    MicrosOfWhole(tag.stop);
  }

  /** A whole number of microseconds converts back exactly. */
  lemma MicrosOfWhole(us: int)
    ensures Micros(us as real / MICROS) == us
  {
    assert us as real / MICROS * MICROS == us as real;
  }

  /** Sets and gets the pulse count (model/q3p-tag.cc:45-49, 63-67). */
  function SetPulses(tag: Tag, pulses: U32): (r: Tag)
    requires tag.TimeSync?
    ensures r.TimeSync? && r.pulses == pulses && r.start == tag.start && r.stop == tag.stop
  {
    tag.(pulses := pulses)
  }

  /** Sets the secure bit count (model/q3p-tag.cc:564-568). */
  function SetSecureBits(tag: Tag, bits: U64): (r: Tag)
    requires tag.PrivacyAmplification?
    ensures r.PrivacyAmplification? && r.secureBits == bits && r.totalBytes == tag.totalBytes
  {
    tag.(secureBits := bits)
  }

  /** Sets the total byte count (model/q3p-tag.cc:577-582). */
  function SetTotalBytes(tag: Tag, bytes: U64): (r: Tag)
    requires tag.PrivacyAmplification?
    ensures r.PrivacyAmplification? && r.totalBytes == bytes && r.secureBits == tag.secureBits
  {
    tag.(totalBytes := bytes)
  }

  /** The type name each class registers (model/q3p-tag.cc:82, 302, 387, 447, 507, 593). */
  function TypeName(k: Kind): string
  {
    match k
    case TimeSyncKind => "ns3::Q3pTagTimeSync"
    case PulseLocatingKind => "ns3::Q3pTagPulseLocating"
    case BasisSiftingKind => "ns3::Q3pTagBasisSifting"
    case KeySiftingKind => "ns3::Q3pTagKeySifting"
    case ErrorCorrectionKind => "ns3::Q3pTagErrorCorrection"
    case PrivacyAmplificationKind => "ns3::Q3pTagPrivacyAmplification"
  }

  /** Different classes register different names. */
  lemma TypeNamesDistinct(a: Kind, b: Kind)
    requires a != b
    ensures TypeName(a) != TypeName(b)
  {
  }

  /** A tag of a class with every field zero, standing in for a freshly constructed one. */
  function Blank(k: Kind): (t: Tag)
    ensures KindOf(t) == k
  {
    match k
    case TimeSyncKind => TimeSync(0, 0, 0)
    case PulseLocatingKind => PulseLocating(0, 0, 0, 0, 0, 0, 0)
    case BasisSiftingKind => BasisSifting
    case KeySiftingKind => KeySifting
    case ErrorCorrectionKind => ErrorCorrection
    case PrivacyAmplificationKind => PrivacyAmplification(0, 0)
  }

  /**
   * The tag the type registry constructs for a class's type id, as written
   * (model/q3p-tag.cc:444-453): the key-sifting id registers the
   * basis-sifting constructor.
   */
  function ConstructAsWritten(k: Kind): (t: Tag)
    ensures k != KeySiftingKind ==> KindOf(t) == k
  {
    if k == KeySiftingKind then Blank(BasisSiftingKind) else Blank(k)
  }

  /** As written, a tag built from the key-sifting type id reports the basis-sifting type name. */
  lemma KeySiftingConstructsBasisSifting()
    ensures TypeName(KindOf(ConstructAsWritten(KeySiftingKind))) != TypeName(KeySiftingKind)
    ensures TypeName(KindOf(ConstructAsWritten(KeySiftingKind))) == TypeName(BasisSiftingKind)
  {
  }

  /** The tag the type registry constructs for a class's type id, each class registering its own constructor. */
  function Construct(k: Kind): (t: Tag)
    ensures TypeName(KindOf(t)) == TypeName(k)
    ensures Deserialize(k, Serialize(t)).Some?
  {
    Blank(k)
  }
}
