/** What the audit directory retains when nothing fails: exactly the last files of a greedy cut of the history. */
module AuditRetention {
  import opened Seqs
  import opened AuditStore

  // ----- rotation without failures

  lemma {:induction false} ShiftMovesUp(slots: Slots, i: nat)
    requires i + 1 !in slots
    ensures var r := Shift(slots, i, NO_FAULTS);
            && (0 in r <==> 0 in slots) && (0 in slots ==> r[0] == slots[0])
            && 1 !in r
            && (forall j: nat :: 2 <= j <= i + 1 ==>
                  (j in r <==> j - 1 in slots) && (j in r ==> r[j] == slots[j - 1]))
            && (forall j: nat :: j > i + 1 ==> ((j in r <==> j in slots) && (j in r ==> r[j] == slots[j])))
    decreases i
  {
    if i > 0 {
      ShiftMovesUp(Rename(slots, i, i + 1), i - 1);
    }
  }

  /** A failure-free rotation drops slot maxFiles, moves every other slot up by one and empties slot 0. */
  lemma RotateMovesUp(slots: Slots, maxFiles: nat)
    requires maxFiles >= 1 && WithinLimitOf(slots, maxFiles)
    ensures var r := Rotate(slots, maxFiles, NO_FAULTS);
            && r.open
            && 0 in r.slots && (0 in slots ==> r.slots[0] == [])
            && WithinLimitOf(r.slots, maxFiles)
            && forall j: nat :: 1 <= j <= maxFiles ==>
                 (j in r.slots <==> j - 1 in slots) && (j in r.slots ==> r.slots[j] == slots[j - 1])
  {
    ShiftMovesUp(slots - {maxFiles}, maxFiles - 1);
  }

  // ----- the greedy cut

  lemma AddLineFlatten(c: seq<seq<Line>>, line: Line, limit: int)
    requires |c| >= 1
    ensures Flatten(AddLine(c, line, limit)) == Flatten(c) + [line]
  {
    var init, last := c[..|c| - 1], c[|c| - 1];
    FlattenSnoc(c, [line]);
    FlattenSnoc(init, last + [line]);
    Assoc(Flatten(init), last, [line]);
  }

  lemma {:induction false} ChunksFlatten(h: seq<Line>, limit: int)
    ensures Flatten(Chunks(h, limit)) == h
  {
    if h == [] {
      FlattenSingle<Line>([]);
    } else {
      ChunksFlatten(h[..|h| - 1], limit);
      AddLineFlatten(Chunks(h[..|h| - 1], limit), h[|h| - 1], limit);
    }
  }

  lemma {:induction false} SizeAppend(a: seq<Line>, b: seq<Line>)
    ensures Size(a + b) == Size(a) + Size(b)
    decreases |b|
  {
    if b == [] {
      assert a + b == a;
    } else {
      assert (a + b)[..|a + b| - 1] == a + b[..|b| - 1];
      SizeAppend(a, b[..|b| - 1]);
    }
  }

  /** Sizes are bytes. */
  lemma {:induction false} SizeIsBytes(lines: seq<Line>)
    ensures Size(lines) == |Flatten(lines)|
  {
    if lines != [] {
      SizeIsBytes(lines[..|lines| - 1]);
    }
  }

  /** A file below a positive limit until its last line; a single line if the limit is not positive. */
  ghost predicate JustReached(file: seq<Line>, limit: int) {
    if limit > 0 then file != [] ==> Size(file[..|file| - 1]) < limit else |file| <= 1
  }

  ghost predicate AllReached(c: seq<seq<Line>>, limit: int) {
    forall i :: 0 <= i < |c| ==> Size(c[i]) >= limit
  }

  ghost predicate AllJustReached(c: seq<seq<Line>>, limit: int) {
    forall i :: 0 <= i < |c| ==> JustReached(c[i], limit)
  }

  lemma AddLineSizes(c: seq<seq<Line>>, line: Line, limit: int)
    requires |c| >= 1 && AllReached(c[..|c| - 1], limit) && AllJustReached(c, limit)
    ensures var r := AddLine(c, line, limit);
            AllReached(r[..|r| - 1], limit) && AllJustReached(r, limit)
  {
    var init, last := c[..|c| - 1], c[|c| - 1];
    if Size(last) >= limit {
      assert [line][..0] == [];
      assert JustReached([line], limit);
      assert (c + [[line]])[..|c|] == c == init + [last];
    } else {
      assert (last + [line])[..|last|] == last;
      assert JustReached(last + [line], limit);
      assert (init + [last + [line]])[..|init|] == init;
    }
  }

  /** Every file but the last has reached the limit, and none had before its last line. */
  lemma {:induction false} ChunkSizes(h: seq<Line>, limit: int)
    ensures var c := Chunks(h, limit);
            AllReached(c[..|c| - 1], limit) && AllJustReached(c, limit)
  {
    if h == [] {
    } else {
      ChunkSizes(h[..|h| - 1], limit);
      AddLineSizes(Chunks(h[..|h| - 1], limit), h[|h| - 1], limit);
    }
  }

  // ----- failure-free runs

  /** The directory of a failure-free run is a function of the history alone. */
  lemma {:induction false} RunIsLastChunks(events: seq<Event>, cfg: Config)
    requires cfg.maxFiles >= 1 && FaultFree(events)
    ensures var s := Run(events, cfg);
            var h := History(events);
            && (s.slots == LastChunks(Chunks(h, cfg.limit), cfg.maxFiles)
                || (h == [] && s.slots == map[] && !s.open))
            && (events != [] && events[|events| - 1].Write? ==> s.open)
  {
    if events != [] {
      var before := events[..|events| - 1];
      RunIsLastChunks(before, cfg);
      var e := events[|events| - 1];
      assert FaultFree(before);
      StepIsLastChunks(Run(before, cfg), History(before), e, cfg);
    }
  }

  lemma RotateThenAppend(c: seq<seq<Line>>, line: Line, maxFiles: nat)
    requires |c| >= 1 && maxFiles >= 1
    ensures var r := Rotate(LastChunks(c, maxFiles), maxFiles, NO_FAULTS);
            r.open && r.slots[0 := Get(r.slots, 0) + [line]] == LastChunks(c + [[line]], maxFiles)
  {
    var full := LastChunks(c, maxFiles);
    RotateMovesUp(full, maxFiles);
    var r := Rotate(full, maxFiles, NO_FAULTS);
    var t := r.slots[0 := Get(r.slots, 0) + [line]];
    assert Get(r.slots, 0) + [line] == [line];
    var want := LastChunks(c + [[line]], maxFiles);
    forall j: nat
      ensures (j in t <==> j in want) && (j in t ==> t[j] == want[j])
    {
      if 1 <= j <= maxFiles && j - 1 in full {
        assert full[j - 1] == FromEnd(c, j - 1);
        assert FromEnd(c + [[line]], j) == FromEnd(c, j - 1);
      }
    }
    assert t == want;
  }

  lemma AppendToLastChunk(c: seq<seq<Line>>, line: Line, maxFiles: nat)
    requires |c| >= 1
    ensures var full := LastChunks(c, maxFiles);
            full[0 := Get(full, 0) + [line]] == LastChunks(c[..|c| - 1] + [c[|c| - 1] + [line]], maxFiles)
  {
    var full := LastChunks(c, maxFiles);
    var d := c[..|c| - 1] + [c[|c| - 1] + [line]];
    var t, want := full[0 := Get(full, 0) + [line]], LastChunks(d, maxFiles);
    assert forall j: nat :: 1 <= j < |c| ==> FromEnd(d, j) == FromEnd(c, j);
    assert t.Keys == want.Keys;
    assert t == want;
  }

  lemma StepIsLastChunks(s: Store, h: seq<Line>, e: Event, cfg: Config)
    requires cfg.maxFiles >= 1 && (e.Write? ==> e.faults == NO_FAULTS)
    requires s.slots == LastChunks(Chunks(h, cfg.limit), cfg.maxFiles)
             || (h == [] && s.slots == map[] && !s.open)
    ensures var s' := Step(s, e, cfg);
            var h' := if e.Write? then h + [e.line] else h;
            && (s'.slots == LastChunks(Chunks(h', cfg.limit), cfg.maxFiles)
                || (h' == [] && s'.slots == map[] && !s'.open))
            && (e.Write? ==> s'.open)
  {
    var c := Chunks(h, cfg.limit);
    var full := LastChunks(c, cfg.maxFiles);
    assert s.slots[0 := Get(s.slots, 0)] == full;
    if e.Write? {
      var h' := h + [e.line];
      assert h'[..|h|] == h;
      var s1 := Reopen(s, NO_FAULTS);
      assert s1.open && s1.slots == full;
      assert Get(full, 0) == c[|c| - 1];
      if Size(c[|c| - 1]) >= cfg.limit {
        RotateThenAppend(c, e.line, cfg.maxFiles);
      } else {
        AppendToLastChunk(c, e.line, cfg.maxFiles);
      }
    }
  }

  /** Where the last k + 1 files begin. */
  function CutAt(n: nat, k: nat): nat
    requires n >= 1
  {
    if n - 1 < k then 0 else n - 1 - k
  }

  lemma GetLastChunk(c: seq<seq<Line>>, maxFiles: nat, k: nat)
    requires |c| >= 1 && k <= maxFiles
    ensures Get(LastChunks(c, maxFiles), k) == if k < |c| then c[|c| - 1 - k] else []
  {
    assert k < |c| ==> LastChunks(c, maxFiles)[k] == FromEnd(c, k);
  }

  /** One more slot reaches one more file back, if there is one. */
  lemma OneSlotBack(c: seq<seq<Line>>, k: nat)
    requires |c| >= 1 && k >= 1
    ensures Flatten(c[CutAt(|c|, k)..]) == (if k < |c| then c[|c| - 1 - k] else []) + Flatten(c[CutAt(|c|, k - 1)..])
  {
    if k < |c| {
      FlattenFrom(c, |c| - 1 - k);
    }
  }

  lemma {:induction false} LastChunksContents(c: seq<seq<Line>>, maxFiles: nat, k: nat)
    requires |c| >= 1 && k <= maxFiles
    ensures Contents(LastChunks(c, maxFiles), k) == Flatten(c[CutAt(|c|, k)..])
    decreases k
  {
    GetLastChunk(c, maxFiles, k);
    if k == 0 {
      assert c[|c| - 1..] == [c[|c| - 1]];
      FlattenSingle(c[|c| - 1]);
    } else {
      LastChunksContents(c, maxFiles, k - 1);
      OneSlotBack(c, k);
    }
  }

  lemma TimesSucc(n: nat, each: int)
    ensures (n + 1) * each == n * each + each
  {
  }

  lemma {:induction false} FlattenSizeAtLeast(c: seq<seq<Line>>, each: int)
    requires AllReached(c, each)
    ensures Size(Flatten(c)) >= |c| * each
  {
    if c != [] {
      var p, last := c[..|c| - 1], c[|c| - 1];
      assert AllReached(p, each);
      FlattenSizeAtLeast(p, each);
      SizeAppend(Flatten(p), last);
      TimesSucc(|p|, each);
    }
  }

  /** The rotated part of the last k + 1 files, when more files than that exist. */
  lemma RotatedSize(c: seq<seq<Line>>, limit: int, k: nat)
    requires |c| - 1 > k && AllReached(c[..|c| - 1], limit)
    ensures Size(Flatten(c[CutAt(|c|, k)..])) - Size(c[|c| - 1]) >= k * limit
  {
    var cut := CutAt(|c|, k);
    var rotated := c[cut..|c| - 1];
    assert c[cut..] == rotated + [c[|c| - 1]];
    assert rotated == c[..|c| - 1][cut..];
    FlattenAppend(rotated, [c[|c| - 1]]);
    FlattenSingle(c[|c| - 1]);
    SizeAppend(Flatten(rotated), c[|c| - 1]);
    FlattenSizeAtLeast(rotated, limit);
  }

  lemma SuffixOfFlatten<T>(c: seq<seq<T>>, cut: nat)
    requires cut <= |c|
    ensures IsSuffix(Flatten(c[cut..]), Flatten(c))
    ensures cut == 0 ==> Flatten(c[cut..]) == Flatten(c)
  {
    assert Flatten(c) == Flatten(c[..cut]) + Flatten(c[cut..]) by {
      assert c == c[..cut] + c[cut..];
      FlattenAppend(c[..cut], c[cut..]);
    }
    SuffixOfAppend(Flatten(c[..cut]), Flatten(c[cut..]));
    assert cut == 0 ==> c[cut..] == c;
  }

  lemma HeldIsSuffix(c: seq<seq<Line>>, maxFiles: nat)
    requires |c| >= 1
    ensures var held := Contents(LastChunks(c, maxFiles), maxFiles);
            IsSuffix(held, Flatten(c)) && (held != Flatten(c) ==> |c| - 1 > maxFiles)
  {
    LastChunksContents(c, maxFiles, maxFiles);
    SuffixOfFlatten(c, CutAt(|c|, maxFiles));
  }

  lemma HeldAtLeast(c: seq<seq<Line>>, limit: int, maxFiles: nat)
    requires |c| - 1 > maxFiles && AllReached(c[..|c| - 1], limit)
    ensures var slots := LastChunks(c, maxFiles);
            Size(Contents(slots, maxFiles)) - Size(Get(slots, 0)) >= maxFiles * limit
  {
    LastChunksContents(c, maxFiles, maxFiles);
    GetLastChunk(c, maxFiles, 0);
    RotatedSize(c, limit, maxFiles);
  }

  lemma HeldOfChunks(h: seq<Line>, limit: int, maxFiles: nat)
    ensures var slots := LastChunks(Chunks(h, limit), maxFiles);
            var held := Contents(slots, maxFiles);
            && IsSuffix(held, h)
            && (held != h ==> Size(held) - Size(Get(slots, 0)) >= maxFiles * limit)
  {
    var c := Chunks(h, limit);
    assert Flatten(c) == h by {
      ChunksFlatten(h, limit);
    }
    HeldIsSuffix(c, maxFiles);
    if |c| - 1 > maxFiles {
      ChunkSizes(h, limit);
      HeldAtLeast(c, limit, maxFiles);
    }
  }

  /**
   Retention: what the directory holds, oldest file first, is a whole-line suffix of everything ever
   written, and once a line has been dropped the rotated files alone hold maxFiles times the limit.
   */
  lemma Retention(events: seq<Event>, cfg: Config)
    requires cfg.maxFiles >= 1 && FaultFree(events)
    ensures var slots := Run(events, cfg).slots;
            var held := Contents(slots, cfg.maxFiles);
            && IsSuffix(held, History(events))
            && (held != History(events) ==> Size(held) - Size(Get(slots, 0)) >= cfg.maxFiles * cfg.limit)
  {
    RunIsLastChunks(events, cfg);
    if Run(events, cfg).slots == map[] {
      EmptyContents(cfg.maxFiles);
    }
    HeldOfChunks(History(events), cfg.limit, cfg.maxFiles);
  }

  lemma {:induction false} EmptyContents(k: nat)
    ensures Contents(map[], k) == []
  {
    if k > 0 {
      EmptyContents(k - 1);
    }
  }

  lemma FileSize(file: seq<Line>, limit: int, longest: nat)
    requires limit > 0 && JustReached(file, limit)
    requires forall l :: l in file ==> |l| <= longest
    ensures Size(file) <= limit - 1 + longest
  {
    if file != [] {
      assert file[|file| - 1] in file;
    }
  }

  lemma {:induction false} FlattenMember<T>(c: seq<seq<T>>, i: nat, x: T)
    requires i < |c| && x in c[i]
    ensures x in Flatten(c)
  {
    if i < |c| - 1 {
      FlattenMember(c[..|c| - 1], i, x);
    }
  }

  ghost predicate Contiguous(slots: Slots) {
    forall i, j: nat :: i in slots && j <= i ==> j in slots
  }

  ghost predicate FilesAtMost(slots: Slots, each: nat) {
    forall i :: i in slots ==> Size(slots[i]) <= each
  }

  /** Disk bound: slots are contiguous from 0 and never above maxFiles, and no file overshoots by more than a line. */
  lemma DiskBound(events: seq<Event>, cfg: Config, longest: nat)
    requires cfg.maxFiles >= 1 && cfg.limit > 0 && FaultFree(events)
    requires forall l :: l in History(events) ==> |l| <= longest
    ensures var slots := Run(events, cfg).slots;
            && WithinLimitOf(slots, cfg.maxFiles)
            && Contiguous(slots)
            && FilesAtMost(slots, cfg.limit - 1 + longest)
  {
    RunIsLastChunks(events, cfg);
    BoundedFiles(Run(events, cfg).slots, History(events), cfg, longest);
  }

  /** Hence a bound on the whole directory. */
  lemma TotalDiskBound(events: seq<Event>, cfg: Config, longest: nat)
    requires cfg.maxFiles >= 1 && cfg.limit > 0 && FaultFree(events)
    requires forall l :: l in History(events) ==> |l| <= longest
    ensures Size(Contents(Run(events, cfg).slots, cfg.maxFiles)) <= (cfg.maxFiles + 1) * (cfg.limit - 1 + longest)
  {
    DiskBound(events, cfg, longest);
    ContentsSizeAtMost(Run(events, cfg).slots, cfg.maxFiles, cfg.limit - 1 + longest);
  }

  /** A file of the cut overshoots the limit by less than a line. */
  lemma ChunkSizeAtMost(h: seq<Line>, limit: int, longest: nat, i: nat)
    requires limit > 0 && i < |Chunks(h, limit)| && forall l :: l in h ==> |l| <= longest
    ensures Size(Chunks(h, limit)[i]) <= limit - 1 + longest
  {
    var c := Chunks(h, limit);
    assert JustReached(c[i], limit) by {
      ChunkSizes(h, limit);
    }
    forall l | l in c[i]
      ensures |l| <= longest
    {
      FlattenMember(c, i, l);
      ChunksFlatten(h, limit);
    }
    FileSize(c[i], limit, longest);
  }

  lemma LastChunksContiguous(c: seq<seq<Line>>, maxFiles: nat)
    requires |c| >= 1
    ensures WithinLimitOf(LastChunks(c, maxFiles), maxFiles) && Contiguous(LastChunks(c, maxFiles))
  {
  }

  lemma LastChunkSize(h: seq<Line>, cfg: Config, longest: nat, i: nat)
    requires cfg.limit > 0 && forall l :: l in h ==> |l| <= longest
    requires i in LastChunks(Chunks(h, cfg.limit), cfg.maxFiles)
    ensures Size(LastChunks(Chunks(h, cfg.limit), cfg.maxFiles)[i]) <= cfg.limit - 1 + longest
  {
    ChunkSizeAtMost(h, cfg.limit, longest, |Chunks(h, cfg.limit)| - 1 - i);
  }

  lemma BoundedFiles(slots: Slots, h: seq<Line>, cfg: Config, longest: nat)
    requires cfg.limit > 0 && forall l :: l in h ==> |l| <= longest
    requires slots == map[] || slots == LastChunks(Chunks(h, cfg.limit), cfg.maxFiles)
    ensures WithinLimitOf(slots, cfg.maxFiles) && Contiguous(slots) && FilesAtMost(slots, cfg.limit - 1 + longest)
  {
    LastChunksContiguous(Chunks(h, cfg.limit), cfg.maxFiles);
    forall i | i in slots
      ensures Size(slots[i]) <= cfg.limit - 1 + longest
    {
      LastChunkSize(h, cfg, longest, i);
    }
  }

  lemma {:induction false} ContentsSizeAtMost(slots: Slots, k: nat, each: nat)
    requires FilesAtMost(slots, each)
    ensures Size(Contents(slots, k)) <= (k + 1) * each
    decreases k
  {
    if k > 0 {
      ContentsSizeAtMost(slots, k - 1, each);
      SizeAppend(Get(slots, k), Contents(slots, k - 1));
      TimesSucc(k, each);
    }
  }

  /** When the scaled limit has wrapped to a non-positive number, every write rotates: one line per file. */
  lemma WrappedLimitKeepsOneLinePerFile(events: seq<Event>, cfg: Config)
    requires cfg.maxFiles >= 1 && cfg.limit <= 0 && FaultFree(events)
    ensures var slots := Run(events, cfg).slots;
            && (forall i :: i in slots ==> |slots[i]| <= 1)
            && |Contents(slots, cfg.maxFiles)| <= cfg.maxFiles + 1
  {
    RunIsLastChunks(events, cfg);
    ChunkSizes(History(events), cfg.limit);
    ContentsLengthAtMost(Run(events, cfg).slots, cfg.maxFiles);
  }

  lemma {:induction false} ContentsLengthAtMost(slots: Slots, k: nat)
    requires forall i :: i in slots ==> |slots[i]| <= 1
    ensures |Contents(slots, k)| <= k + 1
    decreases k
  {
    if k > 0 {
      ContentsLengthAtMost(slots, k - 1);
    }
  }

  lemma {:induction false} OneChunkIff(h: seq<Line>, limit: int)
    ensures |Chunks(h, limit)| == 1 <==> h == [] || Size(h[..|h| - 1]) < limit
    ensures |Chunks(h, limit)| == 1 ==> Chunks(h, limit) == [h]
  {
    if h != [] {
      var p := h[..|h| - 1];
      OneChunkIff(p, limit);
      if |Chunks(p, limit)| == 1 {
        assert p + [h[|h| - 1]] == h;
      } else {
        assert Size(p) >= Size(p[..|p| - 1]);
      }
    }
  }

  /** The log has been rotated exactly when all lines but the last already reached the limit. */
  lemma RotatedIff(events: seq<Event>, cfg: Config)
    requires cfg.maxFiles >= 1 && FaultFree(events)
    ensures var h := History(events);
            1 in Run(events, cfg).slots <==> h != [] && Size(h[..|h| - 1]) >= cfg.limit
  {
    RunIsLastChunks(events, cfg);
    OneChunkIff(History(events), cfg.limit);
  }

  /** A setting meant to disable rotation can do the opposite: from 2^43 to 2^44 - 1 MB each file keeps one line. */
  lemma HugeLimitKeepsOneLinePerFile(events: seq<Event>, mb: int, files: Setting)
    requires 0x800_0000_0000 <= mb < 0x1000_0000_0000 && FaultFree(events)
    ensures var cfg := ConfigOf(Parsed(mb), files);
            && (forall i :: i in Run(events, cfg).slots ==> |Run(events, cfg).slots[i]| <= 1)
            && |Contents(Run(events, cfg).slots, cfg.maxFiles)| <= cfg.maxFiles + 1
  {
    LimitNotPositiveIff(mb);
    WrappedLimitKeepsOneLinePerFile(events, ConfigOf(Parsed(mb), files));
  }

  /** For a setting that does not wrap, the bound on the directory in terms of the configured megabytes. */
  lemma ConfiguredDiskBound(events: seq<Event>, mb: int, files: Setting, longest: nat)
    requires 0 < mb < 0x800_0000_0000 && FaultFree(events)
    requires forall l :: l in History(events) ==> |l| <= longest
    ensures var cfg := ConfigOf(Parsed(mb), files);
            Size(Contents(Run(events, cfg).slots, cfg.maxFiles)) <= (cfg.maxFiles + 1) * (mb * MIB - 1 + longest)
  {
    var cfg := ConfigOf(Parsed(mb), files);
    assert cfg.limit == mb * MIB by {
      LimitIsExactIff(mb);
    }
    TotalDiskBound(events, cfg, longest);
  }
}
