/**
 * The geometry-sample vocabulary shared by the scheduler, the link
 * registration rules and the link session: one sample of a candidate link,
 * a candidate link with its samples, the state bits of a sample and the
 * faces a turntable can be mounted on. Orbit and visibility computation
 * produce these samples; here they are inputs.
 */
module Adi {
  import opened Turntables

  /** Sample state bits (lib/adi-constant.h). */
  const BEYOND_DISTANCE: bv8 := 0x01
  const DST2SRC: bv8 := 0x04
  const DST_DAY: bv8 := 0x08
  const IN_FOV: bv8 := 0x10
  const SRC2DST: bv8 := 0x40
  const SRC_DAY: bv8 := 0x80

  /** The longest usable link, in kilometres. */
  const K_MAX_DISTANCE: real := 1500.0

  /** One minute, the shortest candidate span, in seconds. */
  const MINUTE: real := 60.0

  /** A turntable, identified by a handle. */
  type TurntableId = nat

  /**
   * One geometry sample of a link: its state bits, its time (seconds), the
   * pointing each end needs to see the other and the distance between them.
   */
  datatype LinkData = LinkData(state: bv8, time: real, fromSrc: CoordTurntable, fromDst: CoordTurntable, distance: real)

  /** A candidate link between two turntables with its geometry samples. */
  datatype LinkInfo = LinkInfo(src: TurntableId, dst: TurntableId, linkDatas: seq<LinkData>)

  /** The face of a body a turntable is mounted on (lib/adi-type-define.h). */
  datatype Face = ErrFace | Left | Right | Front | Back | Top | Bottom

  /** True iff some bit of mask is set in state. */
  predicate HasAny(state: bv8, mask: bv8) { state & mask != 0 }
}
