/** Logs as sequences that start at index 1, and what ties them together in clean runs: an entry of
    term t in any log stands on exactly what the leader of t had before it. */
module LogAlgebra {
  import opened RaftTypes
  import opened RaftNode

  type Log = seq<LogEntry>

  /** The term at index k, 0 before the first entry. */
  function TermOf(log: Log, k: nat): nat
    requires k <= |log|
  {
    if k == 0 then 0 else log[k - 1].logTerm
  }

  ghost predicate AnchoredAt(log: Log, k: nat, termLogs: map<nat, Log>)
    requires k < |log|
  {
    log[k].logTerm in termLogs && log[..k + 1] <= termLogs[log[k].logTerm]
  }

  /** Every entry sits on the log of the leader of its term. */
  ghost predicate Anchored(log: Log, termLogs: map<nat, Log>)
  {
    forall k | 0 <= k < |log| :: AnchoredAt(log, k, termLogs)
  }

  ghost predicate Extends(termLogs: map<nat, Log>, termLogs': map<nat, Log>)
  {
    forall t | t in termLogs :: t in termLogs' && termLogs[t] <= termLogs'[t]
  }

  /** A leader starts from older terms and adds entries of its own term only. */
  ghost predicate Shaped(electLogs: map<nat, Log>, termLogs: map<nat, Log>)
  {
    && electLogs.Keys == termLogs.Keys
    && forall t | t in termLogs :: LeaderShape(t, electLogs[t], termLogs[t])
  }

  predicate LeaderShape(t: nat, start: Log, log: Log)
  {
    start <= log && forall k | 0 <= k < |log| :: if k < |start| then log[k].logTerm < t else log[k].logTerm == t
  }

  /** Log Matching: same index and term, same entries up to there. */
  lemma SamePrefix(f: Log, g: Log, k: nat, termLogs: map<nat, Log>)
    requires Anchored(f, termLogs) && Anchored(g, termLogs) && k <= |f| && k <= |g|
    requires TermOf(f, k) == TermOf(g, k)
    ensures f[..k] == g[..k]
  {
    if k > 0 {
      assert AnchoredAt(f, k - 1, termLogs) && AnchoredAt(g, k - 1, termLogs);
    }
  }

  lemma PrefixAnchored(log: Log, k: nat, termLogs: map<nat, Log>)
    requires Anchored(log, termLogs) && k <= |log|
    ensures Anchored(log[..k], termLogs)
  {
    forall j | 0 <= j < k ensures AnchoredAt(log[..k], j, termLogs) {
      assert AnchoredAt(log, j, termLogs) && log[..k][..j + 1] == log[..j + 1];
    }
  }

  lemma AnchoredGrows(log: Log, termLogs: map<nat, Log>, termLogs': map<nat, Log>)
    requires Anchored(log, termLogs) && Extends(termLogs, termLogs')
    ensures Anchored(log, termLogs')
  {
    forall k | 0 <= k < |log| ensures AnchoredAt(log, k, termLogs') {
      assert AnchoredAt(log, k, termLogs);
      PrefixTrans(log[..k + 1], termLogs[log[k].logTerm], termLogs'[log[k].logTerm]);
    }
  }

  lemma PrefixTrans(a: Log, b: Log, c: Log)
    requires a <= b && b <= c
    ensures a <= c
  {
    assert c[..|a|] == c[..|b|][..|a|];
  }

  /** A leader's log with one more entry of its own term. */
  lemma PushAnchored(log: Log, e: LogEntry, termLogs: map<nat, Log>)
    requires Anchored(log, termLogs) && e.logTerm in termLogs && log + [e] <= termLogs[e.logTerm]
    ensures Anchored(log + [e], termLogs)
  {
    forall k | 0 <= k < |log| + 1 ensures AnchoredAt(log + [e], k, termLogs) {
      if k < |log| {
        assert AnchoredAt(log, k, termLogs) && (log + [e])[..k + 1] == log[..k + 1];
      } else {
        assert (log + [e])[..k + 1] == log + [e];
      }
    }
  }

  lemma TermsSorted(log: Log, electLogs: map<nat, Log>, termLogs: map<nat, Log>, j: nat, k: nat)
    requires Anchored(log, termLogs) && Shaped(electLogs, termLogs) && j <= k < |log|
    ensures log[j].logTerm <= log[k].logTerm
  {
    assert AnchoredAt(log, k, termLogs);
    var t := log[k].logTerm;
    assert LeaderShape(t, electLogs[t], termLogs[t]);
    assert log[..k + 1][j] == termLogs[t][j];
  }

  /** A request that carries the leader's log `whole` from `at` to `end`. */
  predicate SliceOf(whole: Log, at: nat, end: nat, prevTerm: nat, entries: Log)
  {
    at <= end <= |whole| && entries == whole[at..end] && TermOf(whole, at) == prevTerm
  }

  /** The heart of replication. In a clean step the follower's log ends up as the leader's log up to
      `end`, or stays as it is and has that as a prefix. */
  lemma CleanSplice(log: Log, whole: Log, at: nat, end: nat, entries: Log, termLogs: map<nat, Log>)
    requires Anchored(log, termLogs) && Anchored(whole, termLogs)
    requires at <= |log| && SliceOf(whole, at, end, TermOf(log, at), entries)
    requires !Conflicts(log, at, entries) || end >= |log|
    ensures var log' := Splice(log, at, entries);
      && whole[..end] <= log'
      && (if end >= |log| then log' == whole[..end] else log' == log)
  {
    SamePrefix(log, whole, at, termLogs);
    assert whole[..end] == whole[..at] + entries;
    if end < |log| {
      if at < end {
        var k := end - at - 1;
        assert log[at + k].logTerm == entries[k].logTerm;
        SamePrefix(log, whole, end, termLogs);
      }
      assert log == log[..end] + log[end..];
      assert log[..end] == whole[..end];
    }
  }
}
