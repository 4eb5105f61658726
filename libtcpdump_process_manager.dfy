/**
 * libtcpdump_process_manager.py: the packet-capture path. It checks an
 * uploaded file's magic number, runs the traffic-statistics tool over the
 * capture, copies the tool's stdout into a results file and hands that file
 * back without its first line.
 */
module TcpDumpManager {
  import opened Wrappers
  import opened Text
  import opened Processes

  type byte = b: int | 0 <= b < 0x100

  /** An uploaded file as `file.read(4)` sees it: its bytes, or a read that raises. */
  datatype Upload = Unreadable | Readable(data: seq<byte>)

  /** Magic numbers of the libpcap file header and of the pcapng Section Header Block. */
  const PcapMicroseconds: nat := 0xA1B2C3D4
  const PcapNanoseconds: nat := 0xA1B23C4D
  const PcapngSectionHeader: nat := 0x0A0D0D0A

  /** The four bytes of a 32-bit value, most significant first. */
  function BigEndian32(n: nat): (w: seq<byte>)
    requires n < 0x1_0000_0000
    ensures |w| == 4
  {
    [n / 0x100_0000, n / 0x1_0000 % 0x100, n / 0x100 % 0x100, n % 0x100]
  }

  function LittleEndian32(n: nat): (w: seq<byte>)
    requires n < 0x1_0000_0000
    ensures |w| == 4
  {
    var b := BigEndian32(n);
    [b[3], b[2], b[1], b[0]]
  }

  /**
   * A capture file starts with the libpcap magic (microsecond or nanosecond
   * timestamps) written in either byte order (section 4 of draft-ietf-opsawg-pcap),
   * or with the pcapng Section Header Block type, which reads the same in both
   * byte orders (section 4.1 of draft-ietf-opsawg-pcapng).
   */
  predicate IsCaptureMagic(w: seq<byte>) {
    || w == BigEndian32(PcapMicroseconds) || w == LittleEndian32(PcapMicroseconds)
    || w == BigEndian32(PcapNanoseconds) || w == LittleEndian32(PcapNanoseconds)
    || w == BigEndian32(PcapngSectionHeader)
  }

  const PcapMagicNumbers: seq<seq<byte>> :=
    [[0xd4, 0xc3, 0xb2, 0xa1], [0xa1, 0xb2, 0xc3, 0xd4], [0x4d, 0x3c, 0xb2, 0xa1], [0xa1, 0xb2, 0x3c, 0x4d]]
  const PcapngMagicNumber: seq<byte> := [0x0a, 0x0d, 0x0d, 0x0a]

  /**
   * `validate_pcap_file`: read (at most) four bytes and accept them if they are one of
   * the listed magic numbers; a read that raises yields False.
   */
  function ValidatePcapFile(file: Upload): (ok: bool)
    ensures ok <==> file.Readable? && |file.data| >= 4 && IsCaptureMagic(file.data[..4])
  {
    match file
    case Unreadable => false
    case Readable(data) =>
      var magic := data[..if |data| < 4 then |data| else 4];
      MagicTable(magic);
      magic in PcapMagicNumbers || magic == PcapngMagicNumber
  }

  /** The byte strings the source lists are exactly the capture magic numbers. */
  lemma MagicTable(magic: seq<byte>)
    ensures magic in PcapMagicNumbers || magic == PcapngMagicNumber <==> |magic| == 4 && IsCaptureMagic(magic)
  {
    assert BigEndian32(PcapMicroseconds) == PcapMagicNumbers[1];
    assert LittleEndian32(PcapMicroseconds) == PcapMagicNumbers[0];
    assert BigEndian32(PcapNanoseconds) == PcapMagicNumbers[3];
    assert LittleEndian32(PcapNanoseconds) == PcapMagicNumbers[2];
    assert BigEndian32(PcapngSectionHeader) == PcapngMagicNumber;
  }

  /** Bytes after the first four never affect the verdict. */
  lemma {:induction false} OnlyMagicMatters(head: seq<byte>, tail: seq<byte>)
    requires |head| >= 4
    ensures ValidatePcapFile(Readable(head + tail)) == ValidatePcapFile(Readable(head[..4]))
  {
    assert (head + tail)[..4] == head[..4];
    assert head[..4][..4] == head[..4];
  }

  /** A file shorter than four bytes is rejected: the short read matches no magic number. */
  lemma ShortFileRejected(data: seq<byte>)
    requires |data| < 4
    ensures !ValidatePcapFile(Readable(data))
  {
  }

  datatype ReadError = StopIteration

  class LibTcpDumpManager {
    var process: ProcessState
    /** Contents of `./pcaps/output.processed`. */
    var results: string

    constructor (existing: string)
      ensures process == NoProcess && results == existing
    {
      process := NoProcess;
      results := existing;
    }

    /** `process_tcpdump`: launch the statistics tool on the fixed capture path. */
    method ProcessTcpdump() returns (command: string)
      modifies this
      ensures process == Running && results == old(results)
      ensures command == "/home/ubuntu/lib-tcpdump-processing/.venv/bin/get-traffic-stats --side rcv pcaps/output.pcap"
    {
      command := "/home/ubuntu/lib-tcpdump-processing/.venv/bin/get-traffic-stats --side rcv pcaps/output.pcap";
      process := Running;
    }

    /**
     * `redirect_output_to_file`: truncate the results file, then copy each stdout line
     * into it when a process exists. `chunks` is what successive `readline()` calls return.
     */
    method RedirectOutputToFile(chunks: seq<string>)
      modifies this
      ensures process == old(process)
      ensures results == if process != NoProcess then Concat(StdoutLines(chunks)) else ""
    {
      results := "";
      if process != NoProcess {
        var lines := StdoutLines(chunks);
        var i := 0;
        while i < |lines|
          invariant 0 <= i <= |lines|
          invariant process == old(process)
          invariant results == Concat(lines[..i])
        {
          ConcatAppend(lines[..i], [lines[i]]);
          assert lines[..i + 1] == lines[..i] + [lines[i]];
          results := results + lines[i];
          i := i + 1;
        }
        assert lines[..i] == lines;
      }
    }

    /** `check_if_running`: False before `process_tcpdump` has set a process. */
    function CheckIfRunning(): (r: bool)
      reads this
      ensures process == NoProcess ==> !r
      ensures r <==> IsRunning(process)
    {
      if process != NoProcess then IsRunning(process) else false
    }

    /**
     * `get_output`: skip the first line with `next` and return the rest; on an empty
     * file `next` raises StopIteration.
     */
    function GetOutput(): (r: Result<string, ReadError>)
      reads this
      ensures r.Err? <==> results == ""
      ensures r.Ok? ==> Lines(results)[0] + r.value == results
      ensures r.Ok? ==> r.value == DropLines(results, 1)
    {
      if results == "" then Err(StopIteration)
      else
        Ok(results[LineEnd(results)..])
    }
  }
}
