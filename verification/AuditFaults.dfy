/**
 What the audit directory retains whichever system calls fail: slot by slot after one rotation, line by line after one
 write, and over whole runs.
 */
module AuditFaults {
  import opened Seqs
  import opened AuditStore
  import opened AuditRetention

  // ----- one rotation, slot by slot

  /** The rename that moves slot j up does its work. */
  predicate MovesUp(s: Slots, f: Faults, j: nat) {
    j in s && j !in f.renames
  }

  lemma {:induction false} ShiftSlots(s: Slots, i: nat, f: Faults, j: nat)
    ensures var r := Shift(s, i, f);
            if 2 <= j <= i + 1 && MovesUp(s, f, j - 1) then j in r && r[j] == s[j - 1]
            else
              && (j in r <==> j in s && !(1 <= j <= i && j !in f.renames))
              && (j in r ==> r[j] == s[j])
    decreases i
  {
    if i > 0 {
      ShiftSlots(if i in f.renames then s else Rename(s, i, i + 1), i - 1, f, j);
    }
  }

  /** Slot j keeps its file unless another one is renamed onto it: its removal or its own rename failed. */
  predicate StaysPut(maxFiles: nat, f: Faults, j: nat) {
    if j == maxFiles then f.remove else j in f.renames
  }

  /** A rotated slot holds what was moved up into it, or else what stayed there. */
  lemma RotateSlot(s: Slots, maxFiles: nat, f: Faults, j: nat)
    requires 1 <= j <= maxFiles
    ensures var r := Rotate(s, maxFiles, f).slots;
            if MovesUp(s, f, j - 1) then j in r && r[j] == s[j - 1]
            else
              && (j in r <==> j in s && StaysPut(maxFiles, f, j))
              && (j in r ==> r[j] == s[j])
  {
    ShiftSlots(if f.remove then s else s - {maxFiles}, maxFiles - 1, f, j);
    ShiftSlots(if f.remove then s else s - {maxFiles}, maxFiles - 1, f, 0);
  }

  /** The current file is empty after a successful rename, untouched after a failed one, and open if reopening works. */
  lemma RotateCurrent(s: Slots, maxFiles: nat, f: Faults)
    requires maxFiles >= 1
    ensures var r := Rotate(s, maxFiles, f);
            && Get(r.slots, 0) == (if 0 in f.renames then Get(s, 0) else [])
            && (0 in r.slots <==> !f.reopen || (0 in s && 0 in f.renames))
            && (r.open <==> !f.reopen)
  {
    ShiftSlots(if f.remove then s else s - {maxFiles}, maxFiles - 1, f, 0);
  }

  lemma RotateWithinLimit(s: Slots, maxFiles: nat, f: Faults)
    requires maxFiles >= 1 && WithinLimitOf(s, maxFiles)
    ensures WithinLimitOf(Rotate(s, maxFiles, f).slots, maxFiles)
  {
    var removed := if f.remove then s else s - {maxFiles};
    var shifted := Shift(removed, maxFiles - 1, f);
    forall j | j in shifted
      ensures j <= maxFiles
    {
      ShiftSlots(removed, maxFiles - 1, f, j);
    }
  }

  /** What the current file held before a rotation is afterwards in slot 1, or still in slot 0 if its rename failed. */
  lemma CurrentSurvives(s: Slots, maxFiles: nat, f: Faults)
    requires maxFiles >= 1 && 0 in s
    ensures Get(Rotate(s, maxFiles, f).slots, if 0 in f.renames then 0 else 1) == s[0]
  {
    RotateSlot(s, maxFiles, f, 1);
    RotateCurrent(s, maxFiles, f);
  }

  /**
   A file told apart by what it holds is lost by a rotation exactly when it was the oldest and its removal worked, or
   when it could not be moved out of the way of the file below it.
   */
  lemma LostIff(s: Slots, maxFiles: nat, f: Faults, j: nat)
    requires maxFiles >= 1 && WithinLimitOf(s, maxFiles)
    requires j in s && s[j] != [] && forall k :: k in s && k != j ==> s[k] != s[j]
    ensures (forall k: nat :: Get(Rotate(s, maxFiles, f).slots, k) != s[j])
            <==> || (j == maxFiles && !f.remove)
                 || (j >= 1 && StaysPut(maxFiles, f, j) && MovesUp(s, f, j - 1))
  {
    var r := Rotate(s, maxFiles, f).slots;
    RotateCurrent(s, maxFiles, f);
    if j >= 1 {
      RotateSlot(s, maxFiles, f, j);
    }
    if j < maxFiles && j !in f.renames {
      RotateSlot(s, maxFiles, f, j + 1);
      assert Get(r, j + 1) == s[j];
    } else if StaysPut(maxFiles, f, j) && (j == 0 || !MovesUp(s, f, j - 1)) {
      assert Get(r, j) == s[j];
    } else {
      forall k: nat
        ensures Get(r, k) != s[j]
      {
        RotateWithinLimit(s, maxFiles, f);
        if 1 <= k <= maxFiles {
          RotateSlot(s, maxFiles, f, k);
        }
      }
    }
  }

  // ----- one write

  predicate Opens(s: Store, f: Faults) {
    s.open || !(f.mkdir || f.openRoot || f.openFile)
  }

  predicate Rotates(s: Store, cfg: Config, f: Faults) {
    Opens(s, f) && !f.stat && Size(Get(s.slots, 0)) >= cfg.limit
  }

  /** The line reaches the disk: there is a handle, also after a rotation, and the write itself works. */
  predicate Lands(s: Store, cfg: Config, f: Faults) {
    Opens(s, f) && !(Rotates(s, cfg, f) && f.reopen) && !f.write
  }

  /** What a write adds. */
  function Added(s: Store, line: Line, cfg: Config, f: Faults): seq<Line> {
    if Lands(s, cfg, f) then [line] else []
  }

  /** The store when a write has reopened and rotated as far as it does. */
  function AfterRotation(s: Store, cfg: Config, f: Faults): Store
    requires cfg.maxFiles >= 1
  {
    if Rotates(s, cfg, f) then Rotate(Reopen(s, f).slots, cfg.maxFiles, f) else Reopen(s, f)
  }

  lemma WriteInParts(s: Store, line: Line, cfg: Config, f: Faults)
    requires cfg.maxFiles >= 1
    ensures var t := AfterRotation(s, cfg, f);
            WriteLine(s, line, cfg, f)
            == if Lands(s, cfg, f) then Store(t.slots[0 := Get(t.slots, 0) + [line]], true) else t
  {
  }

  lemma AddNothing<T>(a: seq<T>)
    ensures a + [] == a
  {
  }

  /**
   A write ends the current file with its line exactly if it lands, on top of what was there unless that was rotated
   away; a failing Stat costs only the rotation.
   */
  lemma WriteCurrent(s: Store, line: Line, cfg: Config, f: Faults)
    requires cfg.maxFiles >= 1 && WithinLimitOf(s.slots, cfg.maxFiles)
    ensures var s' := WriteLine(s, line, cfg, f);
            && (s'.open <==> Opens(s, f) && !(Rotates(s, cfg, f) && f.reopen))
            && WithinLimitOf(s'.slots, cfg.maxFiles)
            && Get(s'.slots, 0) == (if Rotates(s, cfg, f) && 0 !in f.renames then [] else Get(s.slots, 0))
                                   + Added(s, line, cfg, f)
  {
    RotateCurrent(Reopen(s, f).slots, cfg.maxFiles, f);
    RotateWithinLimit(Reopen(s, f).slots, cfg.maxFiles, f);
  }

  /** A write touches the rotated files only by rotating. */
  lemma WriteRotated(s: Store, line: Line, cfg: Config, f: Faults, j: nat)
    requires cfg.maxFiles >= 1 && j >= 1
    ensures Get(WriteLine(s, line, cfg, f).slots, j)
            == Get(if Rotates(s, cfg, f) then Rotate(Reopen(s, f).slots, cfg.maxFiles, f).slots else s.slots, j)
  {
  }

  // ----- the reading of the directory around one slot

  /** What slots hi - 1 down to lo hold, oldest line first. */
  function Between(slots: Slots, hi: nat, lo: nat): seq<Line>
    requires lo <= hi
    decreases hi - lo
  {
    if hi == lo then [] else Get(slots, hi - 1) + Between(slots, hi - 1, lo)
  }

  lemma {:induction false} BetweenSplit(slots: Slots, hi: nat, mid: nat, lo: nat)
    requires lo <= mid <= hi
    ensures Between(slots, hi, lo) == Between(slots, hi, mid) + Between(slots, mid, lo)
    decreases hi - mid
  {
    if hi > mid {
      BetweenSplit(slots, hi - 1, mid, lo);
    }
  }

  lemma {:induction false} BetweenSame(s: Slots, t: Slots, hi: nat, lo: nat)
    requires lo <= hi && forall i: nat :: lo <= i < hi ==> Get(s, i) == Get(t, i)
    ensures Between(s, hi, lo) == Between(t, hi, lo)
    decreases hi - lo
  {
    if hi > lo {
      BetweenSame(s, t, hi - 1, lo);
    }
  }

  lemma {:induction false} ContentsIsBetween(slots: Slots, k: nat)
    ensures Contents(slots, k) == Between(slots, k + 1, 0)
    decreases k
  {
    if k > 0 {
      ContentsIsBetween(slots, k - 1);
    }
  }

  /** The reading of slots n to 0 around one slot. */
  lemma Around(s: Slots, i: nat, n: nat)
    requires i <= n
    ensures Contents(s, n) == Between(s, n + 1, i + 1) + (Get(s, i) + Between(s, i, 0))
  {
    ContentsIsBetween(s, n);
    BetweenSplit(s, n + 1, i + 1, 0);
  }

  /** The reading of slots n to 0 around two adjacent slots. */
  lemma AroundPair(s: Slots, i: nat, n: nat)
    requires i < n
    ensures Contents(s, n) == Between(s, n + 1, i + 2) + (Get(s, i + 1) + (Get(s, i) + Between(s, i, 0)))
  {
    Around(s, i + 1, n);
  }

  lemma EmptyUnit<T>(s: seq<T>)
    ensures [] + s == s
  {
  }

  /** Losing what slot i holds keeps the reading a subsequence. */
  lemma DropSlot(s: Slots, t: Slots, i: nat, n: nat, h: seq<Line>)
    requires i <= n && IsSubsequence(Contents(s, n), h)
    requires Get(t, i) == [] && forall j: nat :: j != i ==> Get(t, j) == Get(s, j)
    ensures IsSubsequence(Contents(t, n), h)
  {
    Around(s, i, n);
    Around(t, i, n);
    BetweenSame(s, t, n + 1, i + 1);
    BetweenSame(s, t, i, 0);
    var p, q := Between(s, n + 1, i + 1), Between(s, i, 0);
    Assoc(p, Get(s, i), q);
    EmptyUnit(q);
    SubsequenceDrop(p, Get(s, i), q, h);
  }

  /** Moving a slot up into an empty one does not change the reading. */
  lemma MoveUp(s: Slots, t: Slots, i: nat, n: nat)
    requires i < n && Get(s, i + 1) == [] && Get(t, i) == [] && Get(t, i + 1) == Get(s, i)
    requires forall j: nat :: j != i && j != i + 1 ==> Get(t, j) == Get(s, j)
    ensures Contents(t, n) == Contents(s, n)
  {
    AroundPair(s, i, n);
    AroundPair(t, i, n);
    BetweenSame(s, t, n + 1, i + 2);
    BetweenSame(s, t, i, 0);
    EmptyUnit(Between(s, i, 0));
    EmptyUnit(Get(s, i) + Between(s, i, 0));
  }

  lemma RenameKeepsSubsequence(s: Slots, i: nat, n: nat, h: seq<Line>)
    requires i < n && IsSubsequence(Contents(s, n), h)
    ensures IsSubsequence(Contents(Rename(s, i, i + 1), n), h)
  {
    if i in s {
      // The target is lost, then the adjacent source takes its place.
      var cleared := s - {i + 1};
      DropSlot(s, cleared, i + 1, n, h);
      MoveUp(cleared, Rename(s, i, i + 1), i, n);
    }
  }

  lemma {:induction false} ShiftKeepsSubsequence(s: Slots, i: nat, f: Faults, n: nat, h: seq<Line>)
    requires i < n && WithinLimitOf(s, n) && IsSubsequence(Contents(s, n), h)
    ensures WithinLimitOf(Shift(s, i, f), n) && IsSubsequence(Contents(Shift(s, i, f), n), h)
    decreases i
  {
    if i > 0 {
      RenameKeepsSubsequence(s, i, n, h);
      ShiftKeepsSubsequence(if i in f.renames then s else Rename(s, i, i + 1), i - 1, f, n, h);
    }
  }

  lemma {:induction false} SameSlotsSameContents(s: Slots, t: Slots, n: nat)
    requires forall i: nat :: Get(s, i) == Get(t, i)
    ensures Contents(s, n) == Contents(t, n)
  {
    if n > 0 {
      SameSlotsSameContents(s, t, n - 1);
    }
  }

  lemma RotateKeepsSubsequence(s: Slots, n: nat, f: Faults, h: seq<Line>)
    requires n >= 1 && WithinLimitOf(s, n) && IsSubsequence(Contents(s, n), h)
    ensures WithinLimitOf(Rotate(s, n, f).slots, n) && IsSubsequence(Contents(Rotate(s, n, f).slots, n), h)
  {
    var removed := if f.remove then s else s - {n};
    if !f.remove {
      DropSlot(s, removed, n, n, h);
    }
    ShiftKeepsSubsequence(removed, n - 1, f, n, h);
    var shifted := Shift(removed, n - 1, f);
    RenameKeepsSubsequence(shifted, 0, n, h);
    var moved := if 0 in f.renames then shifted else Rename(shifted, 0, 1);
    SameSlotsSameContents(moved, moved[0 := Get(moved, 0)], n);
  }

  lemma {:induction false} AppendToCurrent(s: Slots, n: nat, line: Line)
    ensures Contents(s[0 := Get(s, 0) + [line]], n) == Contents(s, n) + [line]
    decreases n
  {
    if n > 0 {
      AppendToCurrent(s, n - 1, line);
      var t := s[0 := Get(s, 0) + [line]];
      assert Get(t, n) == Get(s, n);
      assert Get(s, n) + (Contents(s, n - 1) + [line]) == Get(s, n) + Contents(s, n - 1) + [line];
    }
  }

  // ----- whole runs

  /** What one event adds to the lines that reached the disk. */
  function AddedBy(s: Store, e: Event, cfg: Config): seq<Line> {
    if e.Write? then Added(s, e.line, cfg, e.faults) else []
  }

  /** The lines that reached the disk, in order. */
  function Landed(events: seq<Event>, cfg: Config): seq<Line>
    requires cfg.maxFiles >= 1
  {
    if events == [] then []
    else
      var before, e := events[..|events| - 1], events[|events| - 1];
      Landed(before, cfg) + AddedBy(Run(before, cfg), e, cfg)
  }

  /** Nothing lands that was not submitted, and without failures everything does. */
  lemma {:induction false} LandedOfHistory(events: seq<Event>, cfg: Config)
    requires cfg.maxFiles >= 1
    ensures IsSubsequence(Landed(events, cfg), History(events))
    ensures FaultFree(events) ==> Landed(events, cfg) == History(events)
  {
    if events == [] {
      assert Embeds([], Landed(events, cfg), History(events));
    } else {
      var before, e := events[..|events| - 1], events[|events| - 1];
      LandedOfHistory(before, cfg);
      if e.Write? {
        SubsequenceSkip(Landed(before, cfg), History(before), e.line);
        SubsequenceExtend(Landed(before, cfg), History(before), e.line);
      }
      assert FaultFree(events) ==> FaultFree(before);
      assert Landed(before, cfg) + [] == Landed(before, cfg);
    }
  }

  lemma WriteKeepsSubsequence(s: Store, line: Line, cfg: Config, f: Faults, h: seq<Line>)
    requires cfg.maxFiles >= 1 && WithinLimitOf(s.slots, cfg.maxFiles)
    requires IsSubsequence(Contents(s.slots, cfg.maxFiles), h)
    ensures IsSubsequence(Contents(WriteLine(s, line, cfg, f).slots, cfg.maxFiles), h + Added(s, line, cfg, f))
  {
    var n := cfg.maxFiles;
    SameSlotsSameContents(s.slots, s.slots[0 := Get(s.slots, 0)], n);
    var s1 := Reopen(s, f);
    RotateKeepsSubsequence(s1.slots, n, f, h);
    var s2 := if Rotates(s, cfg, f) then Rotate(s1.slots, n, f) else s1;
    if Lands(s, cfg, f) {
      SubsequenceExtend(Contents(s2.slots, n), h, line);
      AppendToCurrent(s2.slots, n, line);
    } else {
      assert h + [] == h;
    }
  }

  /**
   Whichever calls fail, the directory reads, oldest file first, as a subsequence of the lines that reached the disk,
   and no slot above maxFiles appears.
   */
  lemma {:induction false} AnyFaultsKeepSubsequence(events: seq<Event>, cfg: Config)
    requires cfg.maxFiles >= 1
    ensures var slots := Run(events, cfg).slots;
            && WithinLimitOf(slots, cfg.maxFiles)
            && IsSubsequence(Contents(slots, cfg.maxFiles), Landed(events, cfg))
  {
    var n := cfg.maxFiles;
    if events == [] {
      EmptyContents(n);
      assert Embeds([], [], Landed(events, cfg));
    } else {
      var before, e := events[..|events| - 1], events[|events| - 1];
      var s := Run(before, cfg);
      AnyFaultsKeepSubsequence(before, cfg);
      if e.Write? {
        WriteCurrent(s, e.line, cfg, e.faults);
        WriteKeepsSubsequence(s, e.line, cfg, e.faults, Landed(before, cfg));
      } else {
        SameSlotsSameContents(s.slots, Step(s, e, cfg).slots, n);
        assert Landed(before, cfg) + [] == Landed(before, cfg);
      }
    }
  }

  // ----- what is newest survives

  lemma {:induction false} NewerSlotsLast(slots: Slots, k: nat, n: nat)
    requires k <= n
    ensures IsSuffix(Contents(slots, k), Contents(slots, n))
    decreases n
  {
    if k < n {
      NewerSlotsLast(slots, k, n - 1);
    }
  }

  /**
   Whichever calls fail, after a write the directory reads at its end as what the current file held before, followed
   by the line if it landed.
   */
  lemma WriteKeepsCurrent(s: Store, line: Line, cfg: Config, f: Faults)
    requires cfg.maxFiles >= 1 && WithinLimitOf(s.slots, cfg.maxFiles)
    ensures IsSuffix(Get(s.slots, 0) + Added(s, line, cfg, f),
                     Contents(WriteLine(s, line, cfg, f).slots, cfg.maxFiles))
  {
    var t := WriteLine(s, line, cfg, f).slots;
    WriteCurrent(s, line, cfg, f);
    if Rotates(s, cfg, f) && 0 !in f.renames {
      assert Get(t, 1) == Get(s.slots, 0) || Get(s.slots, 0) == [] by {
        WriteRotated(s, line, cfg, f, 1);
        if 0 in s.slots {
          CurrentSurvives(Reopen(s, f).slots, cfg.maxFiles, f);
        }
      }
      EndsWithTwo(t, cfg.maxFiles, Get(s.slots, 0), Added(s, line, cfg, f));
    } else {
      NewerSlotsLast(t, 0, cfg.maxFiles);
    }
  }

  lemma EndsWithTwo(slots: Slots, n: nat, a: seq<Line>, b: seq<Line>)
    requires n >= 1 && Get(slots, 0) == [] + b && (Get(slots, 1) == a || a == [])
    ensures IsSuffix(a + b, Contents(slots, n))
  {
    EmptyUnit(b);
    if a == [] {
      NewerSlotsLast(slots, 0, n);
    } else {
      NewerSlotsLast(slots, 1, n);
      assert Contents(slots, 1) == Get(slots, 1) + Contents(slots, 0);
    }
  }

  lemma SameLast<T>(a: seq<T>, b: seq<T>)
    requires IsSuffix(a, b) && a != []
    ensures b != [] && b[|b| - 1] == a[|a| - 1]
  {
  }

  /** The directory reads at its end as the last line that reached the disk, if there is one. */
  ghost predicate EndsWithLast(held: seq<Line>, landed: seq<Line>) {
    landed != [] ==> held != [] && held[|held| - 1] == landed[|landed| - 1]
  }

  lemma WriteEndsWithLast(s: Store, line: Line, cfg: Config, f: Faults, landed: seq<Line>)
    requires cfg.maxFiles >= 1 && cfg.limit > 0 && WithinLimitOf(s.slots, cfg.maxFiles)
    requires EndsWithLast(Contents(s.slots, cfg.maxFiles), landed)
    ensures EndsWithLast(Contents(WriteLine(s, line, cfg, f).slots, cfg.maxFiles),
                         landed + Added(s, line, cfg, f))
  {
    var n, t := cfg.maxFiles, WriteLine(s, line, cfg, f).slots;
    WriteKeepsCurrent(s, line, cfg, f);
    if Lands(s, cfg, f) {
      SameLast(Get(s.slots, 0) + [line], Contents(t, n));
    } else {
      assert landed + [] == landed;
      assert Get(s.slots, 0) + [] == Get(s.slots, 0);
      if Rotates(s, cfg, f) {
        NewerSlotsLast(s.slots, 0, n);
        SameLast(Get(s.slots, 0), Contents(s.slots, n));
        SameLast(Get(s.slots, 0), Contents(t, n));
      } else {
        SameSlotsSameContents(s.slots, t, n);
      }
    }
  }

  /**
   With a positive limit, whichever calls ever fail, the last line that reached the disk is the last line the directory
   holds.
   */
  lemma {:induction false} LastLandedIsKept(events: seq<Event>, cfg: Config)
    requires cfg.maxFiles >= 1 && cfg.limit > 0
    ensures EndsWithLast(Contents(Run(events, cfg).slots, cfg.maxFiles), Landed(events, cfg))
  {
    if events != [] {
      var before, e := events[..|events| - 1], events[|events| - 1];
      var s := Run(before, cfg);
      LastLandedIsKept(before, cfg);
      AnyFaultsKeepSubsequence(before, cfg);
      if e.Write? {
        WriteEndsWithLast(s, e.line, cfg, e.faults, Landed(before, cfg));
      } else {
        SameSlotsSameContents(s.slots, Step(s, e, cfg).slots, cfg.maxFiles);
        assert Landed(before, cfg) + [] == Landed(before, cfg);
      }
    }
  }

  // ----- while no rename fails

  ghost predicate NoRenameFails(events: seq<Event>) {
    forall i :: 0 <= i < |events| && events[i].Write? ==> events[i].faults.renames == {}
  }

  /** A rotated file is not above maxFiles, has reached the limit, and has a file below it unless it is the first. */
  predicate SlotStacked(slots: Slots, cfg: Config, j: nat) {
    j >= 1 && j in slots ==>
      j <= cfg.maxFiles && Size(slots[j]) >= cfg.limit && (j >= 2 ==> j - 1 in slots)
  }

  /** All rotated files are like that, and an open handle has its file. */
  ghost predicate Stacked(s: Store, cfg: Config) {
    (forall j: nat :: SlotStacked(s.slots, cfg, j)) && (s.open ==> 0 in s.slots)
  }

  /** What is held is the end of what landed, and all of it while the last slot is free. */
  ghost predicate HoldsEnd(slots: Slots, maxFiles: nat, landed: seq<Line>) {
    && IsSuffix(Contents(slots, maxFiles), landed)
    && (Contents(slots, maxFiles) != landed ==> maxFiles in slots)
  }

  lemma {:induction false} ShiftedContents(s: Slots, r: Slots, k: nat)
    requires k >= 1 && Get(r, 0) == [] && forall j: nat :: 1 <= j <= k ==> Get(r, j) == Get(s, j - 1)
    ensures Contents(r, k) == Contents(s, k - 1)
  {
    if k == 1 {
      assert Get(s, 0) + [] == Get(s, 0);
    } else {
      ShiftedContents(s, r, k - 1);
    }
  }

  /** With all files in place and no failing rename, a rotation moves every file up and drops the oldest. */
  lemma StackedRotate(s: Slots, cfg: Config, f: Faults, j: nat)
    requires cfg.maxFiles >= 1 && Stacked(Store(s, true), cfg) && f.renames == {} && 1 <= j <= cfg.maxFiles
    ensures var r := Rotate(s, cfg.maxFiles, f).slots;
            (j in r <==> j - 1 in s) && (j in r ==> r[j] == s[j - 1])
  {
    assert SlotStacked(s, cfg, j);
    RotateSlot(s, cfg.maxFiles, f, j);
  }

  lemma RotateAbove(s: Slots, cfg: Config, f: Faults, j: nat)
    requires cfg.maxFiles >= 1 && Stacked(Store(s, true), cfg) && j > cfg.maxFiles
    ensures j !in Rotate(s, cfg.maxFiles, f).slots
  {
    forall k | k in s
      ensures k <= cfg.maxFiles
    {
      assert SlotStacked(s, cfg, k);
    }
    RotateWithinLimit(s, cfg.maxFiles, f);
  }

  lemma RotateStacked(s: Slots, cfg: Config, f: Faults)
    requires cfg.maxFiles >= 1 && Stacked(Store(s, true), cfg) && f.renames == {} && Size(s[0]) >= cfg.limit
    ensures Stacked(Rotate(s, cfg.maxFiles, f), cfg)
  {
    var r := Rotate(s, cfg.maxFiles, f);
    RotateCurrent(s, cfg.maxFiles, f);
    var after := r.slots;
    forall j: nat
      ensures SlotStacked(after, cfg, j)
    {
      if j > cfg.maxFiles {
        RotateAbove(s, cfg, f, j);
      } else if j >= 1 {
        StackedRotate(s, cfg, f, j);
        assert SlotStacked(s, cfg, j - 1);
        if j >= 2 {
          StackedRotate(s, cfg, f, j - 1);
        }
      }
    }
  }

  lemma RotateHoldsEnd(s: Slots, cfg: Config, f: Faults, landed: seq<Line>)
    requires cfg.maxFiles >= 1 && Stacked(Store(s, true), cfg) && f.renames == {} && HoldsEnd(s, cfg.maxFiles, landed)
    ensures HoldsEnd(Rotate(s, cfg.maxFiles, f).slots, cfg.maxFiles, landed)
  {
    var n := cfg.maxFiles;
    var r := Rotate(s, n, f).slots;
    RotateCurrent(s, n, f);
    forall j: nat | 1 <= j <= n
      ensures Get(r, j) == Get(s, j - 1)
    {
      StackedRotate(s, cfg, f, j);
    }
    ShiftedContents(s, r, n);
    NewerSlotsLast(s, n - 1, n);
    StackedRotate(s, cfg, f, n);
    assert SlotStacked(s, cfg, n);
  }

  lemma OpenStacked(s: Store, cfg: Config, landed: seq<Line>)
    requires cfg.maxFiles >= 1 && Stacked(s, cfg) && HoldsEnd(s.slots, cfg.maxFiles, landed)
    ensures var s' := Store(s.slots[0 := Get(s.slots, 0)], true);
            Stacked(s', cfg) && HoldsEnd(s'.slots, cfg.maxFiles, landed)
  {
    SameSlotsSameContents(s.slots, s.slots[0 := Get(s.slots, 0)], cfg.maxFiles);
    CurrentStacked(s, cfg, Get(s.slots, 0));
  }

  /** The current file may hold anything. */
  lemma CurrentStacked(s: Store, cfg: Config, file: seq<Line>)
    requires Stacked(s, cfg)
    ensures Stacked(Store(s.slots[0 := file], true), cfg)
  {
    var slots := s.slots[0 := file];
    forall j: nat
      ensures SlotStacked(slots, cfg, j)
    {
      assert SlotStacked(s.slots, cfg, j);
    }
  }

  lemma AppendStacked(s: Store, line: Line, cfg: Config, landed: seq<Line>)
    requires cfg.maxFiles >= 1 && Stacked(s, cfg) && HoldsEnd(s.slots, cfg.maxFiles, landed)
    ensures var s' := Store(s.slots[0 := Get(s.slots, 0) + [line]], true);
            Stacked(s', cfg) && HoldsEnd(s'.slots, cfg.maxFiles, landed + [line])
  {
    AppendToCurrent(s.slots, cfg.maxFiles, line);
    SuffixSnoc(Contents(s.slots, cfg.maxFiles), landed, line);
    CurrentStacked(s, cfg, Get(s.slots, 0) + [line]);
  }

  lemma ReopenStacked(s: Store, cfg: Config, f: Faults, landed: seq<Line>)
    requires cfg.maxFiles >= 1 && Stacked(s, cfg) && HoldsEnd(s.slots, cfg.maxFiles, landed)
    ensures Stacked(Reopen(s, f), cfg) && HoldsEnd(Reopen(s, f).slots, cfg.maxFiles, landed)
  {
    OpenStacked(s, cfg, landed);
  }

  lemma RotateIfFull(s: Store, cfg: Config, f: Faults, landed: seq<Line>)
    requires cfg.maxFiles >= 1 && Stacked(s, cfg) && f.renames == {} && HoldsEnd(s.slots, cfg.maxFiles, landed)
    ensures Stacked(AfterRotation(s, cfg, f), cfg)
    ensures HoldsEnd(AfterRotation(s, cfg, f).slots, cfg.maxFiles, landed)
  {
    ReopenStacked(s, cfg, f, landed);
    var s1 := Reopen(s, f);
    if Rotates(s, cfg, f) {
      RotateStacked(s1.slots, cfg, f);
      RotateHoldsEnd(s1.slots, cfg, f, landed);
    }
  }

  lemma WriteStacked(s: Store, line: Line, cfg: Config, f: Faults, landed: seq<Line>)
    requires cfg.maxFiles >= 1 && Stacked(s, cfg) && f.renames == {} && HoldsEnd(s.slots, cfg.maxFiles, landed)
    ensures Stacked(WriteLine(s, line, cfg, f), cfg)
    ensures HoldsEnd(WriteLine(s, line, cfg, f).slots, cfg.maxFiles, landed + Added(s, line, cfg, f))
  {
    RotateIfFull(s, cfg, f, landed);
    WriteInParts(s, line, cfg, f);
    if Lands(s, cfg, f) {
      AppendStacked(AfterRotation(s, cfg, f), line, cfg, landed);
    } else {
      AddNothing(landed);
    }
  }

  lemma OtherStacked(s: Store, e: Event, cfg: Config, landed: seq<Line>)
    requires cfg.maxFiles >= 1 && Stacked(s, cfg) && HoldsEnd(s.slots, cfg.maxFiles, landed) && !e.Write?
    ensures Stacked(Step(s, e, cfg), cfg) && HoldsEnd(Step(s, e, cfg).slots, cfg.maxFiles, landed)
  {
    OpenStacked(s, cfg, landed);
  }

  lemma StepStacked(s: Store, e: Event, cfg: Config, landed: seq<Line>)
    requires cfg.maxFiles >= 1 && Stacked(s, cfg) && HoldsEnd(s.slots, cfg.maxFiles, landed)
    requires e.Write? ==> e.faults.renames == {}
    ensures Stacked(Step(s, e, cfg), cfg)
    ensures HoldsEnd(Step(s, e, cfg).slots, cfg.maxFiles, landed + AddedBy(s, e, cfg))
  {
    if e.Write? {
      WriteStacked(s, e.line, cfg, e.faults, landed);
    } else {
      AddNothing(landed);
      OtherStacked(s, e, cfg, landed);
    }
  }

  lemma NothingStacked(cfg: Config)
    requires cfg.maxFiles >= 1
    ensures Stacked(Store(map[], false), cfg) && HoldsEnd(map[], cfg.maxFiles, [])
  {
    EmptyContents(cfg.maxFiles);
  }

  /** While no rename fails the files stay stacked and read as the end of what landed. */
  ghost predicate RunsStacked(events: seq<Event>, cfg: Config)
    requires cfg.maxFiles >= 1
  {
    Stacked(Run(events, cfg), cfg) && HoldsEnd(Run(events, cfg).slots, cfg.maxFiles, Landed(events, cfg))
  }

  lemma RunSnoc(events: seq<Event>, k: nat, cfg: Config)
    requires cfg.maxFiles >= 1 && 0 < k <= |events|
    ensures Run(events[..k], cfg) == Step(Run(events[..k - 1], cfg), events[k - 1], cfg)
    ensures Landed(events[..k], cfg)
            == Landed(events[..k - 1], cfg) + AddedBy(Run(events[..k - 1], cfg), events[k - 1], cfg)
  {
    assert events[..k][..k - 1] == events[..k - 1];
  }

  lemma StackedOneMore(events: seq<Event>, k: nat, cfg: Config)
    requires cfg.maxFiles >= 1 && 0 < k <= |events| && NoRenameFails(events) && RunsStacked(events[..k - 1], cfg)
    ensures RunsStacked(events[..k], cfg)
  {
    StepStacked(Run(events[..k - 1], cfg), events[k - 1], cfg, Landed(events[..k - 1], cfg));
    RunSnoc(events, k, cfg);
  }

  lemma {:induction false} RunStacked(events: seq<Event>, k: nat, cfg: Config)
    requires cfg.maxFiles >= 1 && NoRenameFails(events) && k <= |events|
    ensures RunsStacked(events[..k], cfg)
  {
    if k == 0 {
      NothingStacked(cfg);
    } else {
      RunStacked(events, k - 1, cfg);
      StackedOneMore(events, k, cfg);
    }
  }

  lemma {:induction false} RotatedSizes(slots: Slots, limit: int, k: nat)
    requires forall j: nat :: 1 <= j <= k ==> j in slots && Size(slots[j]) >= limit
    ensures Size(Contents(slots, k)) - Size(Get(slots, 0)) >= k * limit
    decreases k
  {
    if k > 0 {
      RotatedSizes(slots, limit, k - 1);
      SizeAppend(Get(slots, k), Contents(slots, k - 1));
      TimesSucc(k - 1, limit);
    }
  }

  lemma {:induction false} StackReaches(s: Store, cfg: Config, j: nat, k: nat)
    requires Stacked(s, cfg) && 1 <= j <= k && k in s.slots
    ensures j in s.slots && Size(s.slots[j]) >= cfg.limit
    decreases k - j
  {
    if j < k {
      StackReaches(s, cfg, j + 1, k);
      assert SlotStacked(s.slots, cfg, j + 1);
    }
    assert SlotStacked(s.slots, cfg, j);
  }

  lemma StackedRetention(s: Store, cfg: Config, landed: seq<Line>)
    requires cfg.maxFiles >= 1 && Stacked(s, cfg) && HoldsEnd(s.slots, cfg.maxFiles, landed)
    ensures var held := Contents(s.slots, cfg.maxFiles);
            held != landed ==> Size(held) - Size(Get(s.slots, 0)) >= cfg.maxFiles * cfg.limit
  {
    if Contents(s.slots, cfg.maxFiles) != landed {
      forall j: nat | 1 <= j <= cfg.maxFiles
        ensures j in s.slots && Size(s.slots[j]) >= cfg.limit
      {
        StackReaches(s, cfg, j, cfg.maxFiles);
      }
      RotatedSizes(s.slots, cfg.limit, cfg.maxFiles);
    }
  }

  /**
   As long as no rename fails, whatever else does, the directory reads as the end of the lines that reached the disk,
   and once one of them is gone the rotated files alone hold maxFiles times the limit.
   */
  lemma RetentionUnlessRenamesFail(events: seq<Event>, cfg: Config)
    requires cfg.maxFiles >= 1 && NoRenameFails(events)
    ensures var slots := Run(events, cfg).slots;
            var held := Contents(slots, cfg.maxFiles);
            && IsSuffix(held, Landed(events, cfg))
            && (held != Landed(events, cfg) ==> Size(held) - Size(Get(slots, 0)) >= cfg.maxFiles * cfg.limit)
  {
    RunStacked(events, |events|, cfg);
    assert events[..|events|] == events;
    StackedRetention(Run(events, cfg), cfg, Landed(events, cfg));
  }
}
