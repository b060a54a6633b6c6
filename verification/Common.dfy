/**
  Constants, byte and time types shared by every module of the model.
  All numbers are those of the headers cited beside them.
 */
module Common {

  type Byte = bv8

  /** A clock reading in milliseconds; the original treats zero as a failed call. */
  type Time = t: int | 0 < t witness 1

  const CHUNK_SIZE: nat := 524288      // src/include/chunk.h:16
  const PAYLOAD_SIZE: nat := 1024      // src/include/packet.h:41
  const LAST_SEQ: nat := 512           // CHUNK_SIZE / PAYLOAD_SIZE
  const DEFAULT_TIMEOUT: nat := 5000   // src/include/util.h:6
  const MAX_TIMEOUT_CNT: nat := 5      // src/include/peer_server.h:8
  const WORD: nat := 0x1_0000_0000     // uint32_t wraps here

  datatype Option<+T> = None | Some(value: T)

  function Min(a: int, b: int): int {
    if a < b then a else b
  }

  function Max(a: int, b: int): int {
    if a > b then a else b
  }

  /** r consists of the entries of all at the positions idx, in the order they have there. */
  ghost predicate Picked<T>(r: seq<T>, all: seq<T>, idx: seq<nat>) {
    && |idx| == |r| && (forall k, l :: 0 <= k < l < |idx| ==> idx[k] < idx[l])
    && forall k :: 0 <= k < |idx| ==> idx[k] < |all| && r[k] == all[idx[k]]
  }

  /** One more entry at the end, picked or not. */
  lemma PickedOneMore<T>(r: seq<T>, all: seq<T>, idx: seq<nat>, x: T)
    requires Picked(r, all, idx)
    ensures Picked(r, all + [x], idx) && Picked(r + [x], all + [x], idx + [|all|])
  {
  }

  /** A DATA packet with a 16-byte header. */
  datatype Data = Data(num: nat, payload: seq<Byte>)

  /** The bytes of a chunk that travel under sequence number s; numbering starts at one. */
  function Slice(chunk: seq<Byte>, s: nat): (r: seq<Byte>)
    requires |chunk| == CHUNK_SIZE && 1 <= s <= LAST_SEQ
    ensures |r| == PAYLOAD_SIZE
  {
    chunk[(s - 1) * PAYLOAD_SIZE .. s * PAYLOAD_SIZE]
  }
}
