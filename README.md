# Torrent metadata accessors

A Dafny model of the torrent-metadata layer of p2python, a small BitTorrent
client. The layer takes a decoded metainfo tree, the dictionary that a
`.torrent` file holds according to the "metainfo files" section of BEP 3. It
keeps the SHA-1 hash of the bencoded `info` dictionary, records the torrent's
single file, and reads torrent fields out of the tree: the announce URL, the
piece length, the piece hashes, the output file name and the total size.

- `bencode.dfy`, module `Bencode`: the decoded tree (`Int | Bytes | List | Dict`,
  with byte-string keys), the keys the layer looks up, and `At`. `At` looks up a
  path of keys and serves as the reference reading of every accessor.
- `piece_hashes.dfy`, module `PieceHashes`: `Chunks`, the specification of how the
  `pieces` byte string is cut into 20-byte piece hashes, with its properties.
- `torrent.dfy`, module `Torrent`: the `TorrentFile` record and the `Torrent`
  class. The tree (`metaInfo`) and the info hash (`infoHash`) are `const`,
  because only construction sets them. `files` is a `var` that `IdentifyFiles`
  appends to. The pure accessors are functions, and `Pieces` is a method with the
  source's `while` loop. `Load` is construction as a whole.

Python's `__init__` raises when `_identify_files` fails, so no object escapes.
`Load` models this by running the constructor (field set-up) and then
`IdentifyFiles`, and by returning `Err(MultiFileUnsupported)` instead of an object.

Two points about the source itself:
- The comment at `p2python/torrent.py:67-69` says each piece hash is 20 bytes
  long, but the loop does not check the length of `pieces`. A remainder becomes a
  shorter last slice (`PieceHashes.FortyOneBytes`).
- The multi-file failure is a `RuntimeError` (`p2python/torrent.py:31`, and again
  at `:62` in `total_size`). It is modelled as `MultiFileUnsupported`.

## Model

| member | source | states |
|---|---|---|
| PieceHashes.FlattenChunks | p2python/torrent.py:70-78 | joining the piece slices in order gives back exactly the `pieces` byte string |
| PieceHashes.ChunksCount | p2python/torrent.py:72-77 | there are ceil(len/20) slices, and none exactly when the byte string is empty |
| PieceHashes.ChunksAt | p2python/torrent.py:75-77 | slice k is bytes 20k up to min(20k+20, len), so the original order is kept |
| PieceHashes.ChunksWellChunked | p2python/torrent.py:75-77 | every slice has 1 to 20 bytes, and every slice but the last has exactly 20 |
| PieceHashes.ChunksFlatten | p2python/torrent.py:75-77 | the converse round trip: slices of that shape are exactly what cutting their concatenation gives |
| PieceHashes.FortyBytes | p2python/torrent.py:75-77 | 40 bytes give two 20-byte piece hashes, first half then second half |
| PieceHashes.FortyOneBytes | p2python/torrent.py:75-77 | 41 bytes are not rejected: they give slices of 20, 20 and 1 bytes |
| Torrent.Torrent.Pieces | p2python/torrent.py:65-78 | the loop over `info.pieces` returns exactly `Chunks` of that byte string |
| Torrent.Torrent.constructor | p2python/torrent.py:14-22 | keeps the tree, sets the info hash to the digest of the `info` value, starts with no files |
| Torrent.Torrent.IdentifyFiles | p2python/torrent.py:25-35 | fails, leaving `files` unchanged, exactly when `info` has a `files` key; otherwise appends one entry (`info.name`, `info.length`) |
| Torrent.Torrent.MultiFile | p2python/torrent.py:44-50 | true exactly when the path info/files exists in the tree |
| Torrent.Torrent.Announce | p2python/torrent.py:37-42 | the result is the byte string the tree holds at `announce` |
| Torrent.Torrent.PieceLength | p2python/torrent.py:52-57 | the result is the integer the tree holds at info/piece length, unchanged |
| Torrent.Torrent.TotalSize | p2python/torrent.py:59-63 | fails exactly on a multi-file torrent; otherwise `files[0].length`, which in a constructed torrent is `info.length` |
| Torrent.Torrent.OutputFile | p2python/torrent.py:80-82 | the result is the byte string the tree holds at info/name |
| Torrent.SoleFileAgrees | p2python/torrent.py:32-35 | in a constructed torrent `files` has exactly one entry, whose name is `output_file` and whose length is `total_size` |
| Torrent.Load | p2python/torrent.py:14-23 | fails exactly on a multi-file torrent; otherwise yields a fresh torrent with the given tree, the digest of its `info` value and its one file |

The accessors cannot change the tree or `files`:
- `metaInfo` and `infoHash` are constants.
- `Announce`, `MultiFile`, `PieceLength`, `TotalSize` and `OutputFile` are functions.
- `Pieces` has no `modifies` clause.

## Left out

- Reading the `.torrent` file (`open`/`read` in `__init__`): the decoded tree is a parameter, and the file name field is not kept.
- The bencoding `Decoder` and `Encoder`: `p2python/bencoding.py` is not part of this model. The tree is taken already decoded.
- SHA-1 over the bencoded `info` value: a parameter `infoDigest: Value -> Digest`, a function returning 20 bytes. Collision resistance is not modelled, so nothing says two trees with different `info` values get different hashes. The digest is a function of the decoded tree, whose dictionaries are unordered maps. This assumes that the encoder's output does not depend on the key order the file was decoded in. `p2python/bencoding.py` is not part of this model, so that assumption is not checked here.
- UTF-8 decoding (`.decode('utf-8')`) of `announce` and `name`: the values stay raw bytes, and decoding failures are not modelled.
- Missing keys and wrong value kinds: the model covers only trees whose values have the kinds BEP 3 gives them, and it states this as preconditions. Each precondition is a path in the tree that must exist and hold the right kind of value. For missing keys, and for `announce` and `name` (which must be byte strings for `.decode`), the source fails with `KeyError`, `TypeError` or `AttributeError`. For three keys, however, the preconditions exclude values the source accepts without error:
  - A non-integer `info.length` is stored unchanged in the `TorrentFile` (`p2python/torrent.py:33-35`). `Loadable` requires an integer.
  - A non-integer `info['piece length']` is returned unchanged (`p2python/torrent.py:57`). `PieceLength` requires an integer.
  - A list-valued `info.pieces` is cut into sub-lists without error (`p2python/torrent.py:70-77`). `Pieces` requires a byte string.
- `__str__`: presentation only.
- `tests/__init__.py`: a context manager that switches process-wide logging off and on. It holds no logic to model.
