/**
 The audit log directory of internal/audit/audit.go as a value, and what any run of
 writes, closes and (re)initialisations leaves in it.

 Slot 0 is `audit.jsonl`, slot i is `audit.jsonl.i`; a slot holds the lines written to it,
 each line being one all-or-nothing write.
 */
module AuditStore {

  newtype Byte = b: int | 0 <= b < 256

  /** One write: a JSON document and its newline. */
  type Line = seq<Byte>

  type Slots = map<nat, seq<Line>>

  /** The settings a run keeps fixed: rotation threshold in bytes and number of rotated files. */
  datatype Config = Config(limit: int, maxFiles: nat)

  /** The directory, and whether the writer holds an open handle on slot 0. */
  datatype Store = Store(slots: Slots, open: bool)

  /** Which system calls fail during one operation; a failing call changes nothing. */
  datatype Faults = Faults(mkdir: bool, openRoot: bool, openFile: bool, stat: bool,
                           remove: bool, renames: set<nat>, reopen: bool, write: bool)

  const NO_FAULTS := Faults(false, false, false, false, false, {}, false, false)

  datatype Event =
    | Init(initFails: bool)
    | Write(line: Line, faults: Faults)
    | Close

  function Get(slots: Slots, i: nat): seq<Line> {
    if i in slots then slots[i] else []
  }

  function Size(lines: seq<Line>): nat {
    if lines == [] then 0 else Size(lines[..|lines| - 1]) + |lines[|lines| - 1]|
  }

  // ----- settings

  const MIB := 0x10_0000
  const INT64_SPAN := 0x1_0000_0000_0000_0000

  datatype Setting = Unset | Unparsable | Parsed(value: int)

  /** Two's complement wrap-around of a 64-bit product. */
  function WrapInt64(x: int): int {
    var r := x % INT64_SPAN;
    if r < INT64_SPAN / 2 then r else r - INT64_SPAN
  }

  function LogMaxSizeBytes(s: Setting): int {
    if s.Parsed? && s.value > 0 then WrapInt64(s.value * MIB) else 50 * MIB
  }

  function LogMaxFiles(s: Setting): (n: nat)
    ensures n >= 1
  {
    if s.Parsed? && s.value > 0 then s.value else 3
  }

  function ConfigOf(size: Setting, files: Setting): Config {
    Config(LogMaxSizeBytes(size), LogMaxFiles(files))
  }

  // ----- one operation

  function Rename(slots: Slots, src: nat, dst: nat): Slots {
    if src in slots then (slots - {src})[dst := slots[src]] else slots
  }

  /** Renames i to i + 1, then i - 1 to i, and so on down to 1 to 2. */
  function Shift(slots: Slots, i: nat, f: Faults): Slots
    decreases i
  {
    if i == 0 then slots
    else Shift(if i in f.renames then slots else Rename(slots, i, i + 1), i - 1, f)
  }

  function Rotate(slots: Slots, maxFiles: nat, f: Faults): Store
    requires maxFiles >= 1
  {
    var removed := if f.remove then slots else slots - {maxFiles};
    var shifted := Shift(removed, maxFiles - 1, f);
    var moved := if 0 in f.renames then shifted else Rename(shifted, 0, 1);
    if f.reopen then Store(moved, false) else Store(moved[0 := Get(moved, 0)], true)
  }

  function Reopen(s: Store, f: Faults): Store {
    if s.open then s
    else if f.mkdir || f.openRoot || f.openFile then s
    else Store(s.slots[0 := Get(s.slots, 0)], true)
  }

  function WriteLine(s: Store, line: Line, cfg: Config, f: Faults): Store
    requires cfg.maxFiles >= 1
  {
    var s1 := Reopen(s, f);
    if !s1.open then s1
    else
      var s2 := if !f.stat && Size(Get(s1.slots, 0)) >= cfg.limit
                then Rotate(s1.slots, cfg.maxFiles, f) else s1;
      if !s2.open || f.write then s2
      else Store(s2.slots[0 := Get(s2.slots, 0) + [line]], true)
  }

  function Step(s: Store, e: Event, cfg: Config): Store
    requires cfg.maxFiles >= 1
  {
    match e
    case Init(fails) => if fails then s else Store(s.slots[0 := Get(s.slots, 0)], true)
    case Write(line, f) => WriteLine(s, line, cfg, f)
    case Close => Store(s.slots, false)
  }

  /** The store after `events`, starting from an empty directory. */
  function Run(events: seq<Event>, cfg: Config): Store
    requires cfg.maxFiles >= 1
  {
    if events == [] then Store(map[], false)
    else Step(Run(events[..|events| - 1], cfg), events[|events| - 1], cfg)
  }

  /** Every line ever handed to the writer, whether or not it reached the disk. */
  function History(events: seq<Event>): seq<Line> {
    if events == [] then []
    else
      var h := History(events[..|events| - 1]);
      match events[|events| - 1]
      case Write(line, _) => h + [line]
      case _ => h
  }

  /** What slots k, k - 1, ..., 0 hold, oldest line first. */
  function Contents(slots: Slots, k: nat): seq<Line> {
    if k == 0 then Get(slots, 0) else Get(slots, k) + Contents(slots, k - 1)
  }

  ghost predicate WithinLimitOf(slots: Slots, maxFiles: nat) {
    forall i :: i in slots ==> i <= maxFiles
  }

  // ----- settings: when the configured size is the size used

  /** The configured megabytes are the bytes used exactly up to 2^43 - 1 MB; beyond, the product wraps. */
  lemma LimitIsExactIff(mb: int)
    requires 0 < mb < INT64_SPAN / 2
    ensures LogMaxSizeBytes(Parsed(mb)) == mb * MIB <==> mb < 0x800_0000_0000
  {
    var p := mb * MIB;
    if mb < 0x800_0000_0000 {
      assert p < INT64_SPAN / 2;
    } else {
      assert p >= INT64_SPAN / 2;
    }
  }

  /** Unset, unparsable and non-positive settings give 50 MB and 3 files; a positive file count is used as it is. */
  lemma SettingsUsed(size: Setting, files: Setting)
    ensures var cfg := ConfigOf(size, files);
            && (!(size.Parsed? && size.value > 0) ==> cfg.limit == 50 * 1024 * 1024)
            && (forall n: int :: n > 0 && files == Parsed(n) ==> cfg.maxFiles == n)
            && ((forall n :: files == Parsed(n) ==> n <= 0) ==> cfg.maxFiles == 3)
  {
  }

  /** The wrapped threshold is not positive exactly when the setting, modulo 2^44 MB, is 0 or at least 2^43 MB. */
  lemma LimitNotPositiveIff(mb: int)
    requires 0 < mb < INT64_SPAN / 2
    ensures LogMaxSizeBytes(Parsed(mb)) <= 0 <==> mb % 0x1000_0000_0000 == 0 || mb % 0x1000_0000_0000 >= 0x800_0000_0000
  {
    var q, r := mb / 0x1000_0000_0000, mb % 0x1000_0000_0000;
    assert mb * MIB == q * INT64_SPAN + r * MIB;
    assert 0 <= r * MIB < INT64_SPAN;
    RemainderOf(q, r * MIB);
  }

  lemma RemainderOf(q: int, r: int)
    requires 0 <= r < INT64_SPAN
    ensures (q * INT64_SPAN + r) % INT64_SPAN == r
  {
  }

  // ----- reference description of a run: cutting the history greedily into files

  /** A line joins the last file unless that has reached the limit. */
  function AddLine(c: seq<seq<Line>>, line: Line, limit: int): (r: seq<seq<Line>>)
    requires |c| >= 1
    ensures |r| >= 1
  {
    var last := c[|c| - 1];
    if Size(last) >= limit then c + [[line]] else c[..|c| - 1] + [last + [line]]
  }

  /** The history cut greedily into files. */
  function Chunks(h: seq<Line>, limit: int): (c: seq<seq<Line>>)
    ensures |c| >= 1
  {
    if h == [] then [[]] else AddLine(Chunks(h[..|h| - 1], limit), h[|h| - 1], limit)
  }

  function FromEnd(c: seq<seq<Line>>, i: nat): seq<Line>
    requires i < |c|
  {
    c[|c| - 1 - i]
  }

  /** Slot i is the i-th file from the end, as far as maxFiles rotated files reach. */
  function LastChunks(c: seq<seq<Line>>, maxFiles: nat): Slots
    requires |c| >= 1
  {
    map i: nat | 0 <= i <= maxFiles && i < |c| :: FromEnd(c, i)
  }

  ghost predicate FaultFree(events: seq<Event>) {
    forall i :: 0 <= i < |events| && events[i].Write? ==> events[i].faults == NO_FAULTS
  }
}
