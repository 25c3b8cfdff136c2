/** What the dashboard shows against everything ever recorded, rotated away and dropped lines included. */
module RecentCalls {
  import opened Seqs
  import opened AuditStore
  import opened Metrics
  import opened Restart
  import opened Strings
  import opened TailRead

  /** The entries were recorded in the order of their timestamps. */
  ghost predicate InOrder(es: seq<Entry>) {
    forall i, j :: 0 <= i < j < |es| ==> !Less(es[j].line.timestamp, es[i].line.timestamp)
  }

  /** None of `others` is newer than one of `shown`. */
  ghost predicate NoneNewer(shown: seq<AuditLine>, others: seq<AuditLine>) {
    forall i, j :: 0 <= i < |shown| && 0 <= j < |others| ==> !Less(shown[i].timestamp, others[j].timestamp)
  }

  lemma LaterAndEarlier(es: seq<Entry>, b: nat)
    requires InOrder(es) && b <= |es|
    ensures Visible(es) == Visible(es[..b]) + Visible(es[b..])
    ensures NoneNewer(Visible(es[b..]), Visible(es[..b]))
  {
    var later, earlier := Visible(es[b..]), Visible(es[..b]);
    forall i, j | 0 <= i < |later| && 0 <= j < |earlier|
      ensures !Less(later[i].timestamp, earlier[j].timestamp)
    {
      assert later[i] == es[b + i].line && earlier[j] == es[j].line;
    }
  }

  lemma SameBagNoneNewer(a: seq<AuditLine>, b: seq<AuditLine>, others: seq<AuditLine>)
    requires multiset(a) == multiset(b) && NoneNewer(b, others)
    ensures NoneNewer(a, others)
  {
    forall i | 0 <= i < |a|
      ensures forall j :: 0 <= j < |others| ==> !Less(a[i].timestamp, others[j].timestamp)
    {
      assert a[i] in multiset(b);
      var k :| 0 <= k < |b| && b[k] == a[i];
    }
  }

  lemma Rebag<T>(shown: seq<T>, hidden: seq<T>, earlier: seq<T>, later: seq<T>)
    requires multiset(shown + hidden) == multiset(later)
    ensures multiset(shown + (earlier + hidden)) == multiset(earlier + later)
  {
    assert multiset(shown + (earlier + hidden)) == multiset(earlier) + multiset(shown + hidden);
  }

  /** Cutting off a sorted sequence leaves out nothing newer. */
  lemma CutSorted(sorted: seq<AuditLine>, n: nat, earlier: seq<AuditLine>)
    requires NewestFirst(sorted) && n <= |sorted| && NoneNewer(sorted, earlier)
    ensures NoneNewer(sorted[..n], earlier + sorted[n..])
  {
    var others := earlier + sorted[n..];
    forall i, j | 0 <= i < n && 0 <= j < |others|
      ensures !Less(sorted[..n][i].timestamp, others[j].timestamp)
    {
      assert others[j] == if j < |earlier| then earlier[j] else sorted[n + j - |earlier|];
    }
  }

  lemma CutNewest(earlier: seq<AuditLine>, later: seq<AuditLine>, n: nat) returns (others: seq<AuditLine>)
    requires n <= |later| && NoneNewer(later, earlier)
    ensures multiset(StableSort(later)[..n] + others) == multiset(earlier + later)
    ensures NoneNewer(StableSort(later)[..n], others)
  {
    var sorted := StableSort(later);
    StableSortSorts(later);
    SameBagNoneNewer(sorted, later, earlier);
    CutSorted(sorted, n, earlier);
    assert sorted[..n] + sorted[n..] == sorted;
    Rebag(sorted[..n], sorted[n..], earlier, later);
    others := earlier + sorted[n..];
  }

  /** `others` completes what is shown to all there is, and none of it is newer. */
  ghost predicate ShowsNewestOf(shown: seq<AuditLine>, others: seq<AuditLine>, all: seq<AuditLine>) {
    multiset(shown + others) == multiset(all) && NoneNewer(shown, others)
  }

  lemma NewestFrom(es: seq<Entry>, b: nat, n: nat, shown: seq<AuditLine>) returns (others: seq<AuditLine>)
    requires InOrder(es) && b <= |es| && n <= |es| - b && shown == StableSort(Visible(es[b..]))[..n]
    ensures ShowsNewestOf(shown, others, Visible(es))
  {
    LaterAndEarlier(es, b);
    others := CutNewest(Visible(es[..b]), Visible(es[b..]), n);
  }

  /** Where in all that was recorded the part read of the current file begins. */
  lemma ReadFrom(codec: Codec, es: seq<Entry>, current: seq<Line>, limit: nat) returns (b: nat)
    requires codec.Sound() && IsSuffix(current, codec.Lines(es))
    ensures b <= |es| && |TailLines(current)| == |es| - b
    ensures RecentLogs(Flatten(current), limit, codec.parse)
            == StableSort(Visible(es[b..]))[..Min(limit, |es| - b)]
  {
    LinesSuffix(codec, es, current);
    var a := |es| - |current|;
    var k := ShownOfRecorded(codec, es[a..], limit);
    assert es[a..][k..] == es[a + k..];
    b := a + k;
  }

  /**
   Without log failures, and if entries were recorded in the order of their timestamps, the dashboard's view of the
   current file leaves out no newer entry of any file, written at any time; it shows `limit` entries unless fewer
   lie in the tail. `others` is everything ever recorded that is not shown.
   */
  lemma NewestOfAll(events: seq<Event>, cfg: Config, codec: Codec, es: seq<Entry>, limit: nat)
    returns (shown: seq<AuditLine>, others: seq<AuditLine>)
    requires cfg.maxFiles >= 1 && FaultFree(events) && codec.Sound()
    requires History(events) == codec.Lines(es) && InOrder(es)
    ensures var current := Get(Run(events, cfg).slots, 0);
            && shown == RecentLogs(Flatten(current), limit, codec.parse)
            && |shown| == Min(limit, |TailLines(current)|)
    ensures ShowsNewestOf(shown, others, Visible(es))
  {
    var current := Get(Run(events, cfg).slots, 0);
    CurrentFile(events, cfg);
    var b := ReadFrom(codec, es, current, limit);
    shown := RecentLogs(Flatten(current), limit, codec.parse);
    others := NewestFrom(es, b, Min(limit, |es| - b), shown);
  }
}
