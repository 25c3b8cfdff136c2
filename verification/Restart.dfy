/** What the counters are after a restart, when they are seeded from the current log file only. */
module Restart {
  import opened Seqs
  import opened AuditStore
  import opened AuditRetention
  import opened Bufio
  import opened Metrics

  /** The lines a starting process reads from the directory. */
  function Seed(slots: Slots, codec: Codec): seq<AuditLine> {
    ReadLines(Flatten(Get(slots, 0)), codec.parse)
  }

  ghost predicate AllFit(lines: seq<Line>) {
    forall i :: 0 <= i < |lines| ==> |lines[i]| <= MAX_SCAN_TOKEN_SIZE
  }

  /** No rotated file next to the current one holds a line, and every line of the current file can be scanned. */
  ghost predicate AllReadable(slots: Slots) {
    Get(slots, 1) == [] && AllFit(Get(slots, 0))
  }

  lemma {:induction false} LaterChunksNonempty(h: seq<Line>, limit: int)
    ensures forall i :: 1 <= i < |Chunks(h, limit)| ==> Chunks(h, limit)[i] != []
  {
    if h != [] {
      LaterChunksNonempty(h[..|h| - 1], limit);
    }
  }

  /** The history is all in the current file exactly when slot 1 holds nothing. */
  lemma OlderThanCurrent(c: seq<seq<Line>>, limit: int, maxFiles: nat)
    requires |c| >= 1 && maxFiles >= 1 && AllReached(c[..|c| - 1], limit)
    requires forall i :: 1 <= i < |c| ==> c[i] != []
    ensures Flatten(c) == Flatten(c[..|c| - 1]) + c[|c| - 1]
    ensures Flatten(c[..|c| - 1]) == [] <==> Get(LastChunks(c, maxFiles), 1) == []
  {
    GetLastChunk(c, maxFiles, 1);
    var init := c[..|c| - 1];
    if |c| >= 2 {
      assert Flatten(init) == Flatten(init[..|init| - 1]) + c[|c| - 2];
      if c[|c| - 2] == [] {
        assert |c| == 2;
        assert init[..0] == [];
      }
    }
  }

  lemma CurrentFile(events: seq<Event>, cfg: Config)
    requires cfg.maxFiles >= 1 && FaultFree(events)
    ensures var slots := Run(events, cfg).slots;
            && IsSuffix(Get(slots, 0), History(events))
            && (Get(slots, 1) == [] <==> |Get(slots, 0)| == |History(events)|)
  {
    RunIsLastChunks(events, cfg);
    var h := History(events);
    if Run(events, cfg).slots != map[] {
      var c := Chunks(h, cfg.limit);
      ChunkSizes(h, cfg.limit);
      ChunksFlatten(h, cfg.limit);
      LaterChunksNonempty(h, cfg.limit);
      OlderThanCurrent(c, cfg.limit, cfg.maxFiles);
      GetLastChunk(c, cfg.maxFiles, 0);
      assert |h| == |Flatten(c[..|c| - 1])| + |c[|c| - 1]|;
    }
  }

  lemma {:induction false} FittingPrefixAll(lines: seq<Line>)
    ensures FittingPrefix(lines, MAX_SCAN_TOKEN_SIZE) == |lines| <==> AllFit(lines)
  {
    if lines != [] {
      FittingPrefixAll(lines[1..]);
      assert lines == [lines[0]] + lines[1..];
    }
  }

  lemma LinesSuffix(codec: Codec, es: seq<Entry>, cur: seq<Line>)
    requires IsSuffix(cur, codec.Lines(es))
    ensures cur == codec.Lines(es[|es| - |cur|..])
  {
  }

  lemma VisibleFrom(es: seq<Entry>, k: nat)
    requires k <= |es|
    ensures Visible(es[k..]) == Visible(es)[k..]
  {
  }

  /** What a starting process reads: the recorded calls of the current file, up to the first overlong line. */
  lemma ReadSuffix(codec: Codec, es: seq<Entry>, cur: seq<Line>, k: nat)
    requires codec.Sound() && k <= |es| && cur == codec.Lines(es[k..])
    ensures ReadLines(Flatten(cur), codec.parse) == Visible(es)[k..][..FittingPrefix(cur, MAX_SCAN_TOKEN_SIZE)]
  {
    VisibleFrom(es, k);
    ReadRecorded(codec, es[k..]);
  }

  lemma MissingCallsShow(older: seq<AuditLine>, read: seq<AuditLine>, rest: seq<AuditLine>)
    requires Tally(map[], older + read + rest) == Tally(map[], read)
    ensures older == [] && rest == []
  {
    if older != [] {
      MissingCallShows(older, read, rest, older[|older| - 1].tool);
    }
    if rest != [] {
      MissingCallShows(older, read, rest, rest[|rest| - 1].tool);
    }
  }

  lemma MissingCallShows(older: seq<AuditLine>, read: seq<AuditLine>, rest: seq<AuditLine>, tool: string)
    requires Tally(map[], older + read + rest) == Tally(map[], read)
    ensures CountOf(older, tool) == 0 && CountOf(rest, tool) == 0
  {
    TallyDetermines(older + read + rest, read, tool);
    CountOfAppend(older + read, rest, tool);
    CountOfAppend(older, read, tool);
  }

  lemma SliceTalliesAsWhole(es: seq<AuditLine>, k: nat, n: nat, read: seq<AuditLine>)
    requires k + n <= |es| && read == es[k..][..n]
    ensures Tally(map[], read) == Tally(map[], es) <==> k == 0 && n == |es|
  {
    var older, rest := es[..k], es[k..][n..];
    assert es == older + read + rest;
    if Tally(map[], read) == Tally(map[], es) {
      MissingCallsShow(older, read, rest);
    }
    if k == 0 && n == |es| {
      assert read == es;
    }
  }

  lemma SeedOfSuffix(codec: Codec, es: seq<Entry>, cur: seq<Line>)
    requires codec.Sound() && IsSuffix(cur, codec.Lines(es))
    ensures Tally(map[], ReadLines(Flatten(cur), codec.parse)) == Tally(map[], Visible(es))
            <==> |cur| == |es| && AllFit(cur)
  {
    var k := |es| - |cur|;
    LinesSuffix(codec, es, cur);
    ReadSuffix(codec, es, cur, k);
    SliceTalliesAsWhole(Visible(es), k, FittingPrefix(cur, MAX_SCAN_TOKEN_SIZE), ReadLines(Flatten(cur), codec.parse));
    FittingPrefixAll(cur);
  }

  /** What decides it in terms of the lines written: short lines, which but for the last stay below the limit. */
  ghost predicate StaysReadable(h: seq<Line>, limit: int) {
    AllFit(h) && (|h| >= 2 ==> Size(h[..|h| - 1]) < limit)
  }

  lemma CurrentIsLastChunk(events: seq<Event>, cfg: Config)
    requires cfg.maxFiles >= 1 && FaultFree(events)
    ensures var slots, c := Run(events, cfg).slots, Chunks(History(events), cfg.limit);
            Get(slots, 0) == c[|c| - 1] && (Get(slots, 1) != [] ==> |c| >= 2)
  {
    RunIsLastChunks(events, cfg);
    var c := Chunks(History(events), cfg.limit);
    GetLastChunk(c, cfg.maxFiles, 0);
    GetLastChunk(c, cfg.maxFiles, 1);
  }

  /** Slot 1 holds a line exactly when two lines were written and all but the last had reached the limit. */
  lemma RotatedLineIff(events: seq<Event>, cfg: Config)
    requires cfg.maxFiles >= 1 && FaultFree(events)
    ensures var h := History(events);
            Get(Run(events, cfg).slots, 1) != [] <==> |h| >= 2 && Size(h[..|h| - 1]) >= cfg.limit
  {
    var h := History(events);
    CurrentFile(events, cfg);
    CurrentIsLastChunk(events, cfg);
    if Get(Run(events, cfg).slots, 1) != [] {
      OneChunkIff(h, cfg.limit);
      LaterChunksNonempty(h, cfg.limit);
    } else {
      assert JustReached(h, cfg.limit) by {
        ChunkSizes(h, cfg.limit);
      }
    }
  }

  lemma ReadableIff(events: seq<Event>, cfg: Config)
    requires cfg.maxFiles >= 1 && FaultFree(events)
    ensures AllReadable(Run(events, cfg).slots) <==> StaysReadable(History(events), cfg.limit)
  {
    RotatedLineIff(events, cfg);
    CurrentFile(events, cfg);
  }

  /**
   Seeding reproduces the counters of everything ever recorded if and only if no rotated file holds a
   line and no line of the current file overflows the scanner's buffer.
   */
  lemma SeedReproducesIff(events: seq<Event>, cfg: Config, codec: Codec, es: seq<Entry>)
    requires cfg.maxFiles >= 1 && FaultFree(events) && codec.Sound() && History(events) == codec.Lines(es)
    ensures Tally(map[], Seed(Run(events, cfg).slots, codec)) == Tally(map[], Visible(es))
            <==> AllReadable(Run(events, cfg).slots)
  {
    CurrentFile(events, cfg);
    SeedOfSuffix(codec, es, Get(Run(events, cfg).slots, 0));
  }

  /** After a restart the counters are those of the lines read followed by the calls handled since. */
  lemma SeededThenCalls(slots: Slots, codec: Codec, calls: seq<AuditLine>)
    ensures Counts(Tally(Tally(map[], Seed(slots, codec)), calls), Seed(slots, codec) + calls)
  {
    TallyAppend(map[], Seed(slots, codec), calls);
    TallyCounts(Seed(slots, codec) + calls);
  }
}
