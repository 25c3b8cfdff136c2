/** The auditWriter object of internal/audit/audit.go, updating its handles and the directory in place. */
module AuditWriter {
  import opened Seqs
  import opened AuditStore
  import opened AuditFaults
  import AuditRetention

  class AuditWriter {
    // The process environment and settings, fixed for the run.
    const dir: string
    const cfg: Config
    // The directory itself.
    var slots: Slots
    // The fields of the source: open log file, open directory root, directory they belong to.
    var file: bool
    var root: bool
    var logDir: string
    /** Every operation so far. */
    ghost var events: seq<Event>

    ghost predicate Valid()
      reads this
    {
      && dir != "" && cfg.maxFiles >= 1
      && (file ==> root && logDir == dir)
      && (logDir != "" ==> logDir == dir)
      && Abs() == Run(events, cfg)
    }

    ghost function Abs(): Store
      reads this
    {
      Store(slots, file)
    }

    constructor (dir: string, cfg: Config)
      requires dir != "" && cfg.maxFiles >= 1
      ensures Valid() && events == [] && slots == map[] && !file && this.dir == dir && this.cfg == cfg
    {
      this.dir, this.cfg := dir, cfg;
      slots, file, root, logDir := map[], false, false, "";
      events := [];
    }

    /** Opens the log file, creating it when absent. */
    method OpenCurrent()
      modifies `slots
      ensures slots == old(slots)[0 := Get(old(slots), 0)]
    {
      if 0 !in slots {
        slots := slots[0 := []];
      }
    }

    method Init(fails: bool) returns (ok: bool)
      requires Valid()
      modifies this
      ensures Valid() && events == old(events) + [Event.Init(fails)]
      ensures ok == !fails
      ensures Abs() == Step(old(Abs()), Event.Init(fails), cfg)
      ensures !ok ==> file == old(file) && root == old(root) && logDir == old(logDir)
      ensures ok ==> file && root && logDir == dir
    {
      ok := !fails;
      if ok {
        OpenCurrent();
        root, file, logDir := true, true, dir;
      }
      events := events + [Event.Init(fails)];
    }

    /** The in-place chain of renames; the oldest file is removed first. */
    method RotateFiles(f: Faults)
      requires root && cfg.maxFiles >= 1
      modifies `slots, `file
      ensures Abs() == Rotate(old(slots), cfg.maxFiles, f)
    {
      file := false;
      var maxFiles := cfg.maxFiles;
      if !f.remove {
        slots := slots - {maxFiles};
      }
      ghost var removed := slots;
      var i: nat := maxFiles - 1;
      while i >= 1
        invariant 0 <= i <= maxFiles - 1
        invariant !file
        invariant Shift(slots, i, f) == Shift(removed, maxFiles - 1, f)
      {
        if i !in f.renames {
          RenameFile(i, i + 1);
        }
        i := i - 1;
      }
      if 0 !in f.renames {
        RenameFile(0, 1);
      }
      if !f.reopen {
        OpenCurrent();
        file := true;
      }
    }

    method RenameFile(src: nat, dst: nat)
      modifies `slots
      ensures slots == Rename(old(slots), src, dst)
    {
      if src in slots {
        var moving := slots[src];
        slots := slots - {src};
        slots := slots[dst := moving];
      }
    }

    /** Opens directory and log file unless they are open already. */
    method EnsureOpen(f: Faults) returns (ok: bool)
      requires (file ==> root && logDir == dir) && (logDir != "" ==> logDir == dir)
      modifies `slots, `file, `root, `logDir
      ensures (file ==> root && logDir == dir) && (logDir != "" ==> logDir == dir)
      ensures Abs() == Reopen(old(Abs()), f)
      ensures ok <==> file
    {
      if !file || logDir != dir {
        if f.mkdir || f.openRoot {
          return false;
        }
        if f.openFile {
          return false;
        }
        OpenCurrent();
        root, file, logDir := true, true, dir;
      }
      ok := true;
    }

    method Write(line: Line, f: Faults)
      requires Valid()
      modifies this
      ensures Valid() && events == old(events) + [Event.Write(line, f)]
      ensures Abs() == WriteLine(old(Abs()), line, cfg, f)
    {
      events := events + [Event.Write(line, f)];
      assert events[..|events| - 1] == old(events);
      var ok := EnsureOpen(f);
      if !ok {
        return;
      }
      if !f.stat && Size(Get(slots, 0)) >= cfg.limit {
        RotateFiles(f);
      }
      if file && !f.write {
        slots := slots[0 := Get(slots, 0) + [line]];
      }
    }

    method Close()
      requires Valid()
      modifies this
      ensures Valid() && events == old(events) + [Event.Close]
      ensures !file && !root && logDir == "" && slots == old(slots)
    {
      file, root, logDir := false, false, "";
      events := events + [Event.Close];
    }

    /** What the theorems about runs say of this object at any moment. */
    lemma Retained()
      requires Valid()
      ensures IsSubsequence(Contents(slots, cfg.maxFiles), Landed(events, cfg))
      ensures NoRenameFails(events) ==> IsSuffix(Contents(slots, cfg.maxFiles), Landed(events, cfg))
      ensures cfg.limit > 0 ==> EndsWithLast(Contents(slots, cfg.maxFiles), Landed(events, cfg))
      ensures FaultFree(events) ==> IsSuffix(Contents(slots, cfg.maxFiles), History(events))
    {
      AnyFaultsKeepSubsequence(events, cfg);
      if NoRenameFails(events) {
        RetentionUnlessRenamesFail(events, cfg);
      }
      if cfg.limit > 0 {
        LastLandedIsKept(events, cfg);
      }
      if FaultFree(events) {
        AuditRetention.Retention(events, cfg);
      }
    }
  }
}
