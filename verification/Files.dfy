/** The WebM file of a node and the globals around it that receiving and sending share: one
    stream with one position, which both move.
  */
module Files {
  import opened Words

  /** struct Cluster, as far as a peer uses it. */
  datatype Cluster = Cluster(pos: nat, number: u32, idBytes: u16, dataBytes: u64, chankBytes: u64)

  const NO_CLUSTER := Cluster(0, 0, 0, 0, 0)

  /** fwrite at a position inside the file or at its end. */
  function Overwrite(file: seq<u8>, at: nat, bytes: seq<u8>): (f: seq<u8>)
    requires at <= |file|
    ensures |f| == if at + |bytes| <= |file| then |file| else at + |bytes|
  {
    file[..at] + bytes + (if at + |bytes| <= |file| then file[at + |bytes|..] else [])
  }

  /** FP and its position; readPos and writePos are the positions CURRENT_FPOS_R and
      CURRENT_FPOS_W remember. headerBytes is WEBM_HEADER.total_bytes, prevCluster is
      CURRENT_CLUSTER->prev, the last closed cluster, and latest LATEST_BLOCK_SEQ. The file is
      what TOTAL_FILE_BYTES lets be read of it. */
  class WebM {
    var file: seq<u8>
    var fpos: nat
    var readPos: nat
    var writePos: nat
    var headerBytes: nat
    var firstClusterSeq: u32
    var prevCluster: Cluster
    var latest: u32

    constructor (file: seq<u8>, headerBytes: nat)
      ensures this.file == file && this.headerBytes == headerBytes && fpos == readPos == headerBytes && writePos == 0
      ensures firstClusterSeq == 0 && prevCluster == NO_CLUSTER && latest == 0
    {
      this.file, this.headerBytes := file, headerBytes;
      fpos, readPos, writePos := headerBytes, headerBytes, 0;
      firstClusterSeq, prevCluster, latest := 0, NO_CLUSTER, 0;
    }

    /** fwrite at the position. */
    method ExportWebM(bytes: seq<u8>)
      requires fpos <= |file|
      modifies this`file, this`fpos
      ensures file == Overwrite(old(file), old(fpos), bytes) && fpos == old(fpos) + |bytes|
    {
      file := Overwrite(file, fpos, bytes);
      fpos := fpos + |bytes|;
    }

    /** A look at the file, which only grows: is it longer than before? */
    method CheckWebMSize(found: seq<u8>) returns (grown: bool)
      requires |file| <= |found|
      modifies this`file
      ensures file == found && (grown <==> old(|file|) < |file|)
    {
      grown := |file| < |found|;
      file := found;
    }

    /** UpdateOffsetWebM on CURRENT_FPOS_R. */
    method UpdateOffsetWebM()
      modifies this`readPos
      ensures readPos == fpos
    {
      readPos := fpos;
    }

    /** SeekABSWebM on CURRENT_FPOS_R. */
    method SeekABSWebM(offset: nat)
      modifies this`readPos, this`fpos
      ensures readPos == fpos == offset
    {
      readPos := offset;
      fpos := offset;
    }

    /** Reads at most bytes bytes at the position; at says where that is. */
    method SearchWebM(bytes: nat, at: nat) returns (buf: seq<u8>)
      requires fpos == at <= |file|
      modifies this`fpos
      ensures buf == file[at..Min(at + bytes, |file|)] && fpos == at + |buf|
    {
      var rest := |file| - at;
      if bytes < rest {
        buf := file[fpos..fpos + bytes];
      } else {
        buf := file[fpos..fpos + rest];
      }
      fpos := fpos + |buf|;
    }

    /** Reads at the position; how much it asks for is reckoned from CURRENT_FPOS_R, which
        lags behind after a read, but the file ends the read in time. */
    method ImportWebM(bytes: nat) returns (buf: seq<u8>)
      requires readPos <= fpos <= |file|
      modifies this`fpos
      ensures buf == file[old(fpos)..Min(old(fpos) + bytes, |file|)] && fpos == old(fpos) + |buf|
    {
      var asked := |file| - readPos;
      if bytes < asked {
        asked := bytes;
      }
      var count := Min(asked, |file| - fpos);
      buf := file[fpos..fpos + count];
      fpos := fpos + count;
    }

    method SeekRLTWebM(offset: int)
      requires fpos + offset >= 0
      modifies this`readPos, this`fpos
      ensures readPos == fpos == old(fpos) + offset
    {
      UpdateOffsetWebM();
      readPos := readPos + offset;
      fpos := readPos;
    }
  }
}
