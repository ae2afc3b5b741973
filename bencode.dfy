/**
 * The decoded form of a bencoded metainfo file (the "metainfo files"
 * section of BitTorrent's BEP 3): integers, raw byte strings, lists and
 * dictionaries keyed by raw byte strings.  The byte-level decoder and
 * encoder are not part of this model; everything starts from the tree.
 */
module Bencode {

  datatype Option<T> = None | Some(value: T)

  /** A dictionary key or byte string: raw bytes, not text. */
  type ByteString = seq<bv8>

  datatype Value =
    | Int(i: int)
    | Bytes(b: ByteString)
    | List(items: seq<Value>)
    | Dict(entries: map<ByteString, Value>)

  // The keys the torrent layer looks up, spelled out as ASCII bytes.
  const ANNOUNCE: ByteString := [0x61, 0x6E, 0x6E, 0x6F, 0x75, 0x6E, 0x63, 0x65]  // "announce"
  const INFO: ByteString := [0x69, 0x6E, 0x66, 0x6F]  // "info"
  const FILES: ByteString := [0x66, 0x69, 0x6C, 0x65, 0x73]  // "files"
  const NAME: ByteString := [0x6E, 0x61, 0x6D, 0x65]  // "name"
  const LENGTH: ByteString := [0x6C, 0x65, 0x6E, 0x67, 0x74, 0x68]  // "length"
  const PIECE_LENGTH: ByteString :=  // "piece length"
    [0x70, 0x69, 0x65, 0x63, 0x65, 0x20, 0x6C, 0x65, 0x6E, 0x67, 0x74, 0x68]
  const PIECES: ByteString := [0x70, 0x69, 0x65, 0x63, 0x65, 0x73]  // "pieces"

  /**
   * The value reached from `v` by following the dictionary keys of `path`
   * one after the other, or None when some step meets a missing key or a
   * value that is not a dictionary.
   */
  function At(v: Value, path: seq<ByteString>): (found: Option<Value>)
    decreases |path|
  {
    if path == [] then Some(v)
    else match v
      case Dict(entries) =>
        if path[0] in entries then At(entries[path[0]], path[1..]) else None
      case _ => None
  }

  predicate IsDictAt(v: Value, path: seq<ByteString>) {
    At(v, path).Some? && At(v, path).value.Dict?
  }

  predicate IsBytesAt(v: Value, path: seq<ByteString>) {
    At(v, path).Some? && At(v, path).value.Bytes?
  }

  predicate IsIntAt(v: Value, path: seq<ByteString>) {
    At(v, path).Some? && At(v, path).value.Int?
  }

  /** A one-key path is one dictionary lookup. */
  lemma AtKey(v: Value, k: ByteString)
    ensures At(v, [k]) == if v.Dict? && k in v.entries then Some(v.entries[k]) else None
  {
  }

  /** A two-key path is a lookup in the dictionary a lookup finds. */
  lemma AtKeys(v: Value, k1: ByteString, k2: ByteString)
    ensures At(v, [k1, k2]) ==
      if v.Dict? && k1 in v.entries && v.entries[k1].Dict? && k2 in v.entries[k1].entries
      then Some(v.entries[k1].entries[k2])
      else None
  {
    if v.Dict? && k1 in v.entries {
      assert [k1, k2][1..] == [k2];
      AtKey(v.entries[k1], k2);
    }
  }
}
