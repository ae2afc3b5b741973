/**
 * The torrent layer: a decoded metainfo tree read as torrent fields
 * (announce URL, piece length, piece hashes, the single file's name and
 * size) together with the SHA-1 info hash computed once at construction.
 */
module Torrent {
  import opened Bencode
  import opened PieceHashes

  /** A SHA-1 digest: always 20 bytes. */
  type Digest = s: seq<bv8> | |s| == 20
    witness [0, 0, 0, 0, 0, 0, 0, 0, 0, 0, 0, 0, 0, 0, 0, 0, 0, 0, 0, 0]

  /** One file the torrent describes: its name (raw bytes) and its length. */
  datatype TorrentFile = TorrentFile(name: ByteString, length: int)

  /** The one failure this layer raises itself: multi-file torrents. */
  datatype TorrentError = MultiFileUnsupported

  datatype Result<T> = Ok(value: T) | Err(error: TorrentError)

  datatype Outcome = Pass | Fail(error: TorrentError)

  /**
   * What loading needs of the decoded tree: an `info` dictionary and, when
   * it has no `files` key, a byte-string `name` and an integer `length`.
   */
  predicate Loadable(metaInfo: Value) {
    && IsDictAt(metaInfo, [INFO])
    && (At(metaInfo, [INFO, FILES]).None? ==>
          IsBytesAt(metaInfo, [INFO, NAME]) && IsIntAt(metaInfo, [INFO, LENGTH]))
  }

  /** The entry a single-file torrent's `files` list holds. */
  function SoleFile(metaInfo: Value): (file: TorrentFile)
    requires IsBytesAt(metaInfo, [INFO, NAME]) && IsIntAt(metaInfo, [INFO, LENGTH])
  {
    TorrentFile(At(metaInfo, [INFO, NAME]).value.b, At(metaInfo, [INFO, LENGTH]).value.i)
  }

  class Torrent {
    /** The decoded metainfo tree; never changed after construction. */
    const metaInfo: Value
    /** SHA-1 of the bencoded `info` dictionary. */
    const infoHash: Digest
    /** The files of the torrent, filled in by IdentifyFiles. */
    var files: seq<TorrentFile>

    /** The state of every Torrent that construction hands out. */
    ghost predicate Valid()
      reads this
    {
      && Loadable(metaInfo)
      && At(metaInfo, [INFO, FILES]).None?
      && files == [SoleFile(metaInfo)]
    }

    /**
     * The field set-up of construction: keeps the tree, hashes its `info`
     * value with `infoDigest` (SHA-1 over the bencoding) and starts with no
     * files.
     */
    constructor (metaInfo: Value, infoDigest: Value -> Digest)
      requires At(metaInfo, [INFO]).Some?
      ensures this.metaInfo == metaInfo
      ensures infoHash == infoDigest(At(metaInfo, [INFO]).value)
      ensures files == []
    {
      AtKey(metaInfo, INFO);
      this.metaInfo := metaInfo;
      this.infoHash := infoDigest(metaInfo.entries[INFO]);
      this.files := [];
    }

    /** The `info` dictionary's entries. */
    function Info(): (entries: map<ByteString, Value>)
      requires IsDictAt(metaInfo, [INFO])
    {
      AtKey(metaInfo, INFO);
      metaInfo.entries[INFO].entries
    }

    /**
     * Appends the single file to `files`, or fails, appending nothing, when
     * the torrent lists several files.
     */
    method IdentifyFiles() returns (r: Outcome)
      requires Loadable(metaInfo)
      modifies this`files
      ensures r.Fail? <==> At(metaInfo, [INFO, FILES]).Some?
      ensures r.Fail? ==> r.error == MultiFileUnsupported && files == old(files)
      ensures r.Pass? ==> files == old(files) + [SoleFile(metaInfo)]
    {
      if MultiFile() {
        return Fail(MultiFileUnsupported);
      }
      AtKeys(metaInfo, INFO, NAME);
      AtKeys(metaInfo, INFO, LENGTH);
      var info := Info();
      files := files + [TorrentFile(info[NAME].b, info[LENGTH].i)];
      r := Pass;
    }

    /** The tracker's announce URL, as the raw bytes of the tree. */
    function Announce(): (url: ByteString)
      requires IsBytesAt(metaInfo, [ANNOUNCE])
      ensures At(metaInfo, [ANNOUNCE]) == Some(Bytes(url))
    {
      AtKey(metaInfo, ANNOUNCE);
      metaInfo.entries[ANNOUNCE].b
    }

    /** Whether the torrent lists more than one file. */
    predicate MultiFile()
      requires IsDictAt(metaInfo, [INFO])
      ensures MultiFile() <==> At(metaInfo, [INFO, FILES]).Some?
    {
      AtKeys(metaInfo, INFO, FILES);
      AtKey(metaInfo, INFO);
      FILES in metaInfo.entries[INFO].entries
    }

    /** The number of bytes in each piece, exactly as the tree holds it. */
    function PieceLength(): (n: int)
      requires IsIntAt(metaInfo, [INFO, PIECE_LENGTH])
      ensures At(metaInfo, [INFO, PIECE_LENGTH]) == Some(Int(n))
    {
      AtKeys(metaInfo, INFO, PIECE_LENGTH);
      Info()[PIECE_LENGTH].i
    }

    /** The size of the single file; fails on a multi-file torrent. */
    function TotalSize(): (r: Result<int>)
      reads this
      requires IsDictAt(metaInfo, [INFO])
      requires At(metaInfo, [INFO, FILES]).None? ==> files != []
      ensures r.Err? <==> At(metaInfo, [INFO, FILES]).Some?
      ensures r.Err? ==> r.error == MultiFileUnsupported
      ensures r.Ok? ==> r.value == files[0].length
      ensures Valid() ==> r == Ok(At(metaInfo, [INFO, LENGTH]).value.i)
    {
      if MultiFile() then Err(MultiFileUnsupported) else Ok(files[0].length)
    }

    /** The piece hashes: `info.pieces` cut into slices of 20 bytes, in order. */
    method Pieces() returns (pieces: seq<seq<bv8>>)
      requires IsBytesAt(metaInfo, [INFO, PIECES])
      ensures pieces == Chunks(At(metaInfo, [INFO, PIECES]).value.b)
    {
      AtKeys(metaInfo, INFO, PIECES);
      var data := Info()[PIECES].b;
      pieces := [];
      var offset := 0;
      var length := |data|;
      while offset < length
        invariant 0 <= offset
        invariant pieces + Chunks(data[Min(offset, length)..]) == Chunks(data)
      {
        // A slice past the end of the data stops at the end.
        var piece := data[offset..Min(offset + HashLength, length)];
        if offset + HashLength < length {
          assert data[offset..][..HashLength] == piece;
          assert data[offset..][HashLength..] == data[offset + HashLength..];
        } else {
          assert data[offset..] == piece;
          assert data[Min(offset + HashLength, length)..] == [];
        }
        assert Chunks(data[offset..]) == [piece] + Chunks(data[Min(offset + HashLength, length)..]);
        pieces := pieces + [piece];
        offset := offset + HashLength;
      }
    }

    /** The name of the single output file, as the raw bytes of the tree. */
    function OutputFile(): (name: ByteString)
      requires IsBytesAt(metaInfo, [INFO, NAME])
      ensures At(metaInfo, [INFO, NAME]) == Some(Bytes(name))
    {
      AtKeys(metaInfo, INFO, NAME);
      Info()[NAME].b
    }
  }

  /**
   * In a constructed torrent the sole entry of `files` and the accessors
   * that read the tree directly agree on the name and the size.
   */
  lemma SoleFileAgrees(t: Torrent)
    requires t.Valid()
    ensures |t.files| == 1 && !t.MultiFile()
    ensures t.files[0].name == t.OutputFile()
    ensures t.TotalSize() == Ok(t.files[0].length)
  {
  }

  /**
   * Construction as a whole: set up the fields, then identify the files.
   * A multi-file torrent fails and no Torrent is handed out.
   */
  method Load(metaInfo: Value, infoDigest: Value -> Digest) returns (r: Result<Torrent>)
    requires Loadable(metaInfo)
    ensures r.Err? <==> At(metaInfo, [INFO, FILES]).Some?
    ensures r.Err? ==> r.error == MultiFileUnsupported
    ensures r.Ok? ==> fresh(r.value) && r.value.Valid()
    ensures r.Ok? ==> r.value.metaInfo == metaInfo
    ensures r.Ok? ==> r.value.infoHash == infoDigest(At(metaInfo, [INFO]).value)
    ensures r.Ok? ==> r.value.files == [SoleFile(metaInfo)]
  {
    var t := new Torrent(metaInfo, infoDigest);
    var identified := t.IdentifyFiles();
    if identified.Fail? {
      return Err(identified.error);
    }
    return Ok(t);
  }
}
