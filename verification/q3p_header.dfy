/**
 * The one-octet header of the key post-processing protocol: it names the
 * protocol step a packet belongs to.
 */
module Q3pHeader {
  import opened Results
  import opened Bytes

  /** Protocol step codes (model/q3p-header.h:43-51). */
  const TIME_SYNC_TAGGING: Byte := 1
  const PULSE_LOCATING: Byte := 2
  const BASIS_SIFTING: Byte := 3
  const KEY_SIFTING: Byte := 4
  const ERROR_CORRECTION: Byte := 5
  const PRIVACY_AMPLIFICATION: Byte := 6

  /** A header: the step code. */
  datatype Header = Header(kind: Byte)

  /** A header as built, before any step is set (model/q3p-header.cc:40-44). */
  function Default(): (h: Header)
    ensures h.kind == 0 && GetTypeString(h).None?
  {
    Header(0)
  }

  /** The encoded size of every header (model/q3p-header.cc:58-63). */
  const SERIALIZED_SIZE: nat := 1

  /** Writes the step code as one octet (model/q3p-header.cc:65-71). */
  function Serialize(h: Header): (bs: seq<Byte>)
    ensures |bs| == SERIALIZED_SIZE && bs[0] == h.kind
  {
    [h.kind]
  }

  /** A header read off a buffer, with the number of octets it used. */
  datatype Decoded = Decoded(header: Header, consumed: nat, rest: seq<Byte>)

  /**
   * Reads the step code back (model/q3p-header.cc:73-79), using one octet;
   * an empty buffer has no header to read.
   */
  function Deserialize(bs: seq<Byte>): (r: Option<Decoded>)
    ensures r.Some? <==> |bs| >= 1
    ensures r.Some? ==> r.value.consumed == SERIALIZED_SIZE && bs == Serialize(r.value.header) + r.value.rest
  {
    if |bs| == 0 then None else Some(Decoded(Header(bs[0]), 1, bs[1..]))
  }

  /** Reading a written header returns it and leaves the rest of the buffer. */
  lemma RoundTrip(h: Header, rest: seq<Byte>)
    ensures Deserialize(Serialize(h) + rest) == Some(Decoded(h, SERIALIZED_SIZE, rest))
  {
    assert (Serialize(h) + rest)[1..] == rest;
  }

  /** Sets the step code (model/q3p-header.cc:88-93). */
  function SetType(h: Header, kind: Byte): (r: Header)
    ensures r.kind == kind
  {
    h.(kind := kind)
  }

  /** The step code (model/q3p-header.cc:95-99). */
  function GetType(h: Header): Byte
  {
    h.kind
  }

  /** Getting returns what was set, and setting what was got changes nothing. */
  lemma SetGet(h: Header, kind: Byte)
    ensures GetType(SetType(h, kind)) == kind
    ensures SetType(h, GetType(h)) == h
  {
  }

  /**
   * The name of the step (model/q3p-header.cc:101-115); codes outside 1..6,
   * the default 0 among them, have none and trip an assertion.
   */
  function GetTypeString(h: Header): (r: Option<string>)
    ensures r.Some? <==> TIME_SYNC_TAGGING <= h.kind <= PRIVACY_AMPLIFICATION
    ensures r.Some? ==> |r.value| > 0
  {
    match h.kind
    case 1 => Some("Time synchronization tagging")
    case 2 => Some("Pulse locating")
    case 3 => Some("Basis sifting")
    case 4 => Some("Key sifting")
    case 5 => Some("Error correction")
    case 6 => Some("Privacy amplification")
    case _ => None
  }

  /** Different steps have different names. */
  lemma TypeStringsDistinct(a: Header, b: Header)
    requires GetTypeString(a).Some? && GetTypeString(b).Some?
    requires a.kind != b.kind
    ensures GetTypeString(a) != GetTypeString(b)
  {
  }
}
