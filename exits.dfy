/** The algorithmic pieces of the menu's exits: finding the Windows boot
    entry through `BootOrder` (a little-endian array of UINT16 boot option
    numbers, section 3.3 of the UEFI 2.10 specification) and formatting it
    for `BootNext`; checking bit 0 of `OsIndicationsSupported` (section
    8.5.4 of UEFI 2.10) before rebooting to firmware; and wiping the keyfile
    left on disk. Variable reads, subprocesses and the file system are
    inputs or a class here. */
module Exits {
  import opened Bytes

  // --------------------------------------------------- the Windows entry

  /** The description that marks the Windows entry. */
  const WINDOWS: string := "Windows Boot Manager"

  /** One item of the boot-entry iterator: an entry with its description, or
      an error while reading it. */
  datatype EntryRead = EntryOk(description: string) | EntryErr

  /** How the search ends. Every outcome except `Found` shows a dialog and
      returns to the menu. */
  datatype WindowsLookup =
    | ListingFailed            // `get_boot_entries` failed
    | BootOrderUnreadable      // reading `BootOrder` failed
    | OddLength(len: nat)      // `BootOrder` has an odd number of bytes
    | MissingId(index: nat)    // the entry at `index` has no two bytes of `BootOrder` left
    | EntryFailed(index: nat)  // the entry at `index` could not be read
    | NotFound
    | Found(id: seq<byte>)     // the two raw (little-endian) bytes of the entry's number

  /** An entry the scan passes over: it has an ID, it was read, it is not Windows. */
  predicate Skipped(entries: seq<EntryRead>, order: seq<byte>, j: nat)
    requires j < |entries|
  {
    2 * j + 2 <= |order| && entries[j].EntryOk? && entries[j].description != WINDOWS
  }

  /** The reference scan from entry `i` on. The i-th entry is paired with
      bytes `[2i, 2i+1]` of `BootOrder`; the missing ID is checked before the
      entry itself, and the first Windows entry wins. */
  function ScanFrom(entries: seq<EntryRead>, order: seq<byte>, i: nat): (r: WindowsLookup)
    requires i <= |entries|
    ensures r.NotFound? || r.Found? || r.MissingId? || r.EntryFailed?
    ensures r.NotFound? ==> forall j :: i <= j < |entries| ==> Skipped(entries, order, j)
    ensures r.Found? ==> exists k :: i <= k < |entries| && 2 * k + 2 <= |order| && entries[k] == EntryOk(WINDOWS)
                                     && r.id == order[2 * k..2 * k + 2]
                                     && forall j :: i <= j < k ==> Skipped(entries, order, j)
    ensures r.MissingId? ==> i <= r.index < |entries| && |order| < 2 * r.index + 2
                             && forall j :: i <= j < r.index ==> Skipped(entries, order, j)
    ensures r.EntryFailed? ==> i <= r.index < |entries| && 2 * r.index + 2 <= |order| && entries[r.index].EntryErr?
                               && forall j :: i <= j < r.index ==> Skipped(entries, order, j)
    decreases |entries| - i
  {
    if i == |entries| then NotFound
    else if |order| < 2 * i + 2 then MissingId(i)
    else if entries[i].EntryErr? then EntryFailed(i)
    else if entries[i].description == WINDOWS then Found(order[2 * i..2 * i + 2])
    else
      assert Skipped(entries, order, i);
      ScanFrom(entries, order, i + 1)
  }

  /** The reference definition of the whole lookup. */
  function LookupWindows(entries: Option<seq<EntryRead>>, bootOrder: Option<seq<byte>>): (r: WindowsLookup)
    ensures bootOrder.Some? && entries.Some? && |bootOrder.value| % 2 != 0 ==> r == OddLength(|bootOrder.value|)
    ensures r.Found? ==> entries.Some? && bootOrder.Some? && |bootOrder.value| % 2 == 0 && |r.id| == 2
  {
    if entries.None? then ListingFailed
    else if bootOrder.None? then BootOrderUnreadable
    else if |bootOrder.value| % 2 != 0 then OddLength(|bootOrder.value|)
    else ScanFrom(entries.value, bootOrder.value, 0)
  }

  /** The lookup in the Windows arm of `choose_exit`: a cursor over
      `BootOrder` advances two bytes per entry while the entries are walked. */
  method FindWindowsEntry(entries: Option<seq<EntryRead>>, bootOrder: Option<seq<byte>>)
    returns (r: WindowsLookup)
    ensures r == LookupWindows(entries, bootOrder)
  {
    if entries.None? {
      return ListingFailed;
    }
    if bootOrder.None? {
      return BootOrderUnreadable;
    }
    var es := entries.value;
    var order := bootOrder.value;
    if |order| % 2 != 0 {
      return OddLength(|order|);
    }
    var cursor := 0;
    var target: Option<seq<byte>> := None;
    var i := 0;
    while i < |es|
      invariant 0 <= i <= |es| && cursor == 2 * i
      invariant target.None? ==> ScanFrom(es, order, i) == ScanFrom(es, order, 0)
      invariant target.Some? ==> ScanFrom(es, order, 0) == Found(target.value)
      decreases |es| - i, if target.None? then 1 else 0
    {
      if cursor + 2 > |order| {
        return MissingId(i);
      }
      var id := order[cursor..cursor + 2];
      cursor := cursor + 2;
      match es[i] {
        case EntryErr =>
          return EntryFailed(i);
        case EntryOk(description) =>
          if description == WINDOWS {
            target := Some(id);
            break;
          }
      }
      i := i + 1;
    }
    if target.None? {
      return NotFound;
    }
    r := Found(target.value);
  }

  /** A `BootOrder` of odd length is rejected before any entry is looked at. */
  lemma OddBootOrderRejected(entries: seq<EntryRead>, order: seq<byte>)
    requires |order| % 2 == 1
    ensures LookupWindows(Some(entries), Some(order)) == OddLength(|order|)
  {
  }

  /** An upper-case hex digit. */
  function UpperHex(v: nat): (c: char)
    requires v < 16
    ensures '0' <= c <= '9' || 'A' <= c <= 'F'
  {
    if v < 10 then (48 + v) as char else (65 + v - 10) as char
  }

  /** The value of an upper-case hex digit. */
  function UpperHexValue(c: char): nat
    requires '0' <= c <= '9' || 'A' <= c <= 'F'
  {
    if c <= '9' then c as int - 48 else c as int - 65 + 10
  }

  lemma UpperHexBack(v: nat)
    requires v < 16
    ensures UpperHexValue(UpperHex(v)) == v
  {
  }

  /** The value four upper-case hex digits spell. */
  function Hex4Value(s: string): nat
    requires |s| == 4 && forall i :: 0 <= i < 4 ==> '0' <= s[i] <= '9' || 'A' <= s[i] <= 'F'
  {
    UpperHexValue(s[0]) * 4096 + UpperHexValue(s[1]) * 256 + UpperHexValue(s[2]) * 16 + UpperHexValue(s[3])
  }

  /** `format!("{:02X}{:02X}", id[1], id[0])`, the argument of
      `efibootmgr -n`: four upper-case hex digits that spell the
      little-endian UINT16 the two bytes hold. */
  function BootNextArg(id: seq<byte>): (s: string)
    requires |id| == 2
    ensures |s| == 4 && forall i :: 0 <= i < 4 ==> '0' <= s[i] <= '9' || 'A' <= s[i] <= 'F'
    ensures Hex4Value(s) == id[0] as int + 256 * id[1] as int
  {
    UpperHexBack(id[1] / 16);
    UpperHexBack(id[1] % 16);
    UpperHexBack(id[0] / 16);
    UpperHexBack(id[0] % 16);
    [UpperHex(id[1] / 16), UpperHex(id[1] % 16), UpperHex(id[0] / 16), UpperHex(id[0] % 16)]
  }

  // -------------------------------------------------------- OsIndications

  /** The 8-byte buffer after reading `OsIndicationsSupported` into it. */
  type Bytes8 = s: seq<byte> | |s| == 8 witness seq(8, i => 0)

  /** `u64::from_le_bytes`: the first byte is the least significant. */
  function LeValue(b: seq<byte>): nat
  {
    if b == [] then 0 else b[0] + 256 * LeValue(b[1..])
  }

  datatype UefiDecision = ReadFailed | NotSupported(value: nat) | Proceed

  /** The check before `bootctl reboot-to-firmware 1`: a failed read or a
      clear bit 0 stops there; bit 0 is decided by the first byte alone. */
  function CheckOsIndications(read: Option<Bytes8>): (d: UefiDecision)
    ensures read.None? <==> d == ReadFailed
    ensures read.Some? ==> (d == Proceed <==> read.value[0] % 2 == 1)
    ensures d.NotSupported? ==> d.value == LeValue(read.value) && d.value % 2 == 0
  {
    match read
    case None => ReadFailed
    case Some(buffer) =>
      var value := LeValue(buffer);
      LowBitIsFirstByte(buffer);
      if value % 2 == 1 then Proceed else NotSupported(value)
  }

  /** Bit 0 of a little-endian value is bit 0 of its first byte, and eight
      bytes hold a u64. */
  lemma LowBitIsFirstByte(b: seq<byte>)
    requires b != []
    ensures LeValue(b) % 2 == b[0] % 2
  {
    var rest := LeValue(b[1..]);
    assert LeValue(b) == b[0] + 2 * (128 * rest);
  }

  lemma {:induction false} LeValueBound(b: seq<byte>)
    ensures LeValue(b) < Pow256(|b|)
    decreases |b|
  {
    if b != [] {
      LeValueBound(b[1..]);
      assert LeValue(b) <= 255 + 256 * (Pow256(|b| - 1) - 1);
    }
  }

  function Pow256(n: nat): nat
  {
    if n == 0 then 1 else 256 * Pow256(n - 1)
  }

  // ------------------------------------------------------------- the wipe

  const CHUNK_LEN: nat := 512
  const WIPE_PASSES: nat := 4

  type Chunk = s: seq<byte> | |s| == CHUNK_LEN witness seq(CHUNK_LEN, i => 0)

  /** Writing `chunk` at `pos` into `content`: it overwrites what is there
      and extends the file past its end. */
  function Overwrite(content: seq<byte>, pos: nat, chunk: seq<byte>): (r: seq<byte>)
    requires pos <= |content|
    ensures |r| == if pos + |chunk| > |content| then pos + |chunk| else |content|
    ensures forall i :: pos <= i < pos + |chunk| ==> r[i] == chunk[i - pos]
    ensures forall i :: 0 <= i < |r| && (i < pos || pos + |chunk| <= i) ==> r[i] == content[i]
  {
    content[..pos] + chunk + (if pos + |chunk| < |content| then content[pos + |chunk|..] else [])
  }

  /** `/crypto_keyfile.bin` opened for writing, with its cursor. */
  class KeyfileOnDisk {
    var content: seq<byte>
    var position: nat

    /** The file after `write_all(&keyfile)` and `seek(Start(0))`: the keyfile
        overwrites the start of whatever the file held (it is not truncated). */
    constructor (existing: seq<byte>, keyfile: seq<byte>)
      ensures content == keyfile + (if |keyfile| < |existing| then existing[|keyfile|..] else [])
      ensures position == 0
    {
      content := keyfile + (if |keyfile| < |existing| then existing[|keyfile|..] else []);
      position := 0;
    }

    /** `seek(SeekFrom::Start(0))`. */
    method Rewind()
      modifies this
      ensures position == 0 && content == old(content)
    {
      position := 0;
    }

    /** `write(&chunk)`, writing the whole chunk and returning its length. */
    method Write(chunk: Chunk) returns (n: nat)
      requires position <= |content|
      modifies this
      ensures n == CHUNK_LEN && position == old(position) + n
      ensures content == Overwrite(old(content), old(position), chunk)
    {
      content := Overwrite(content, position, chunk);
      position := position + CHUNK_LEN;
      n := CHUNK_LEN;
    }
  }

  /** The byte the wipe leaves at offset `i`: `noise(pass, k)` is the chunk
      the RNG fills for the k-th write of `pass`. */
  function NoiseAt(noise: (nat, nat) -> Chunk, pass: nat, i: nat): byte
  {
    noise(pass, i / CHUNK_LEN)[i % CHUNK_LEN]
  }

  /** The k-th write of a pass lays down `noise(pass, k)` at offset `CHUNK_LEN * k`. */
  lemma ChunkNoise(noise: (nat, nat) -> Chunk, pass: nat, k: nat)
    ensures forall i :: CHUNK_LEN * k <= i < CHUNK_LEN * k + CHUNK_LEN ==>
                          NoiseAt(noise, pass, i) == noise(pass, k)[i - CHUNK_LEN * k]
  {
    forall i | CHUNK_LEN * k <= i < CHUNK_LEN * k + CHUNK_LEN
      ensures i / CHUNK_LEN == k && i % CHUNK_LEN == i - CHUNK_LEN * k
    {
      var j := i - CHUNK_LEN * k;
      assert i == CHUNK_LEN * k + j && 0 <= j < CHUNK_LEN;
    }
  }

  /** Only one multiple of the chunk length lies in `[len, len + CHUNK_LEN)`,
      so every pass of the wipe stops at the same offset. */
  lemma SameChunkEnd(a: nat, b: nat, len: nat)
    requires a % CHUNK_LEN == 0 && b % CHUNK_LEN == 0
    requires len <= a < len + CHUNK_LEN && len <= b < len + CHUNK_LEN
    ensures a == b
  {
    assert a / CHUNK_LEN == b / CHUNK_LEN;
  }

  /** The wipe after a successful unlock: four passes, each from offset 0,
      writing chunks until `written >= len`. Every pass covers at least the
      first `len` bytes and stops less than one chunk past them; at the end
      the whole covered range holds the last pass's noise, the file is as
      long as before or as the covered range, and every byte past the
      covered range is as it was. */
  method Wipe(file: KeyfileOnDisk, len: nat, noise: (nat, nat) -> Chunk)
    requires len <= |file.content|
    modifies file
    ensures file.position % CHUNK_LEN == 0 && len <= file.position < len + CHUNK_LEN
    ensures file.position <= |file.content|
    ensures forall i :: 0 <= i < file.position ==> file.content[i] == NoiseAt(noise, WIPE_PASSES - 1, i)
    ensures |file.content| == (if |old(file.content)| < file.position then file.position else |old(file.content)|)
    ensures forall i :: file.position <= i < |file.content| ==> file.content[i] == old(file.content)[i]
  {
    for pass := 0 to WIPE_PASSES
      invariant len <= |file.content|
      invariant pass == 0 ==> file.content == old(file.content)
      invariant pass > 0 ==> file.position % CHUNK_LEN == 0 && len <= file.position < len + CHUNK_LEN
      invariant pass > 0 ==> file.position <= |file.content|
      invariant pass > 0 ==> forall i :: 0 <= i < file.position ==> file.content[i] == NoiseAt(noise, pass - 1, i)
      invariant pass > 0 ==> |file.content| == (if |old(file.content)| < file.position then file.position else |old(file.content)|)
      invariant pass > 0 ==> forall i :: file.position <= i < |file.content| ==> file.content[i] == old(file.content)[i]
    {
      ghost var before := file.content;
      ghost var previousEnd := file.position;
      var written := 0;
      var k := 0;
      file.Rewind();
      while written < len
        invariant written == file.position == CHUNK_LEN * k
        invariant written <= |file.content| && len <= |file.content|
        invariant written < len + CHUNK_LEN
        invariant forall i :: 0 <= i < written ==> file.content[i] == NoiseAt(noise, pass, i)
        invariant |file.content| == (if |before| < written then written else |before|)
        invariant forall i :: written <= i < |file.content| ==> file.content[i] == before[i]
      {
        var chunk := noise(pass, k);
        ChunkNoise(noise, pass, k);
        var n := file.Write(chunk);
        written := written + n;
        k := k + 1;
      }
      if pass > 0 {
        SameChunkEnd(previousEnd, written, len);
      }
    }
  }
}
