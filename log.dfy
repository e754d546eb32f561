/**
 * The activity logs of both runs: lists of entries keyed by a name (a file name, a prompt
 * name, or a step name such as "Setup"), written by `addLogEntry`/`updateLogEntry` and
 * their edit-run twins. Timestamps are not modelled.
 */
module Log {
  import opened Wrappers

  datatype Status = Processing | Completed | Failed

  datatype LogEntry = LogEntry(name: string, status: Status, error: Option<string>)

  /** `log.findIndex(e => e.filename === name)`: the first entry with that name, or -1. */
  function FindIndex(log: seq<LogEntry>, name: string): (k: int)
    ensures -1 <= k < |log|
    ensures k >= 0 ==> log[k].name == name && forall j :: 0 <= j < k ==> log[j].name != name
    ensures k == -1 <==> forall j :: 0 <= j < |log| ==> log[j].name != name
  {
    if log == [] then -1
    else if log[0].name == name then 0
    else
      var k := FindIndex(log[1..], name);
      if k == -1 then -1 else k + 1
  }

  /** `log.find(...)`: the first entry with that name. */
  function Lookup(log: seq<LogEntry>, name: string): (r: Option<LogEntry>)
    ensures r.Some? <==> name in Labels(log)
    ensures r.Some? ==> r.value in log && r.value.name == name
    ensures r.Some? ==> exists k :: 0 <= k < |log| && r.value == log[k] && forall j :: 0 <= j < k ==> log[j].name != name
  {
    var k := FindIndex(log, name);
    if k >= 0 then Some(log[k]) else None
  }

  /**
   * `addLogEntry(name, status, error)`: the first entry with that name is replaced, or,
   * when there is none, a new entry is appended.
   */
  function Upsert(log: seq<LogEntry>, name: string, status: Status, error: Option<string>): seq<LogEntry> {
    var k := FindIndex(log, name);
    var e := LogEntry(name, status, error);
    if k >= 0 then log[k := e] else log + [e]
  }

  function Labels(log: seq<LogEntry>): set<string> {
    set e | e in log :: e.name
  }

  /** No two entries share a name. */
  predicate UniqueLabels(log: seq<LogEntry>) {
    forall i, j :: 0 <= i < j < |log| ==> log[i].name != log[j].name
  }

  /** No entry is still marked 'processing'. */
  predicate NoneProcessing(log: seq<LogEntry>) {
    forall i :: 0 <= i < |log| ==> log[i].status != Processing
  }

  /**
   * The upsert replaces the first entry with the name in place and keeps the length, or
   * appends at the end; all other entries are unchanged and the name is then found with
   * the new status and error.
   */
  lemma UpsertSpec(log: seq<LogEntry>, name: string, status: Status, error: Option<string>)
    ensures var r := Upsert(log, name, status, error);
      var e := LogEntry(name, status, error);
      && (name in Labels(log) ==>
          |r| == |log| && r[FindIndex(log, name)] == e
          && forall j :: 0 <= j < |log| && j != FindIndex(log, name) ==> r[j] == log[j])
      && (name !in Labels(log) ==> r == log + [e])
      && Lookup(r, name) == Some(e)
      && Labels(r) == Labels(log) + {name}
  {
    var r := Upsert(log, name, status, error);
    var k := FindIndex(log, name);
    if k >= 0 {
      assert log[k] in log;
      assert forall j :: 0 <= j < k ==> r[j] == log[j];
      FindIndexAt(r, name, k);
    } else {
      assert forall j :: 0 <= j < |log| ==> r[j] == log[j];
      FindIndexAt(r, name, |log|);
    }
    UpsertLabels(log, name, status, error);
  }

  /** The first entry with the name is the one `FindIndex` finds. */
  lemma {:induction false} FindIndexAt(log: seq<LogEntry>, name: string, k: nat)
    requires k < |log| && log[k].name == name
    requires forall j :: 0 <= j < k ==> log[j].name != name
    ensures FindIndex(log, name) == k
  {
    if k > 0 {
      assert log[0].name != name;
      assert forall j :: 0 <= j < k - 1 ==> log[1..][j] == log[j + 1];
      FindIndexAt(log[1..], name, k - 1);
    }
  }

  /** An upsert leaves the entries of every other name as they were. */
  lemma UpsertOthers(log: seq<LogEntry>, name: string, status: Status, error: Option<string>, other: string)
    requires other != name
    ensures Lookup(Upsert(log, name, status, error), other) == Lookup(log, other)
  {
    var r := Upsert(log, name, status, error);
    var k := FindIndex(log, name);
    var n := FindIndex(log, other);
    UpsertSpec(log, name, status, error);
    if n >= 0 {
      assert forall j :: 0 <= j < |log| ==> r[j].name == log[j].name;
      assert FindIndex(r, other) == n;
      assert n != k;
    } else {
      assert forall j :: 0 <= j < |r| ==> r[j].name != other;
    }
  }

  /** The log never holds two entries with the same name. */
  lemma UpsertKeepsUnique(log: seq<LogEntry>, name: string, status: Status, error: Option<string>)
    requires UniqueLabels(log)
    ensures UniqueLabels(Upsert(log, name, status, error))
  {
    UpsertSpec(log, name, status, error);
  }

  /** Upserting an entry that is not 'processing' keeps a log free of 'processing' entries. */
  lemma UpsertKeepsNoneProcessing(log: seq<LogEntry>, name: string, status: Status, error: Option<string>)
    requires NoneProcessing(log) && status != Processing
    ensures NoneProcessing(Upsert(log, name, status, error))
  {
  }

  /** Upserting the same name twice: the second write wins and the first leaves no trace. */
  lemma UpsertOverwrite(log: seq<LogEntry>, name: string, s1: Status, e1: Option<string>, s2: Status, e2: Option<string>)
    ensures Upsert(Upsert(log, name, s1, e1), name, s2, e2) == Upsert(log, name, s2, e2)
  {
    var k := FindIndex(log, name);
    var r := Upsert(log, name, s1, e1);
    if k >= 0 {
      assert forall j :: 0 <= j <= k ==> r[j].name == log[j].name;
      assert FindIndex(r, name) == k;
    } else {
      assert r == log + [LogEntry(name, s1, e1)];
      assert forall j :: 0 <= j < |log| ==> r[j] == log[j];
      assert r[|log|].name == name;
      assert FindIndex(r, name) == |log|;
    }
  }

  /** An upsert adds its label to the labels of the log. */
  lemma UpsertLabels(log: seq<LogEntry>, name: string, status: Status, error: Option<string>)
    ensures Labels(Upsert(log, name, status, error)) == Labels(log) + {name}
  {
    var r := Upsert(log, name, status, error);
    var k := FindIndex(log, name);
    if k >= 0 {
      assert log[k] in log;
      forall x | x in Labels(r) ensures x in Labels(log) + {name} {
        var y :| y in r && y.name == x;
        var m :| 0 <= m < |r| && r[m] == y;
        if m != k { assert log[m] in log; }
      }
      forall x | x in Labels(log) ensures x in Labels(r) {
        var y :| y in log && y.name == x;
        var m :| 0 <= m < |log| && log[m] == y;
        if m != k { assert r[m] in r; } else { assert r[k] in r; }
      }
    } else {
      assert r[|log|] in r;
      forall x | x in Labels(r) ensures x in Labels(log) + {name} {
        var y :| y in r && y.name == x;
        var m :| 0 <= m < |r| && r[m] == y;
        if m < |log| { assert log[m] in log; }
      }
      forall x | x in Labels(log) ensures x in Labels(r) {
        var y :| y in log && y.name == x;
        var m :| 0 <= m < |log| && log[m] == y;
        assert r[m] in r;
      }
    }
  }

  /**
   * What the rest of the model needs of one upsert: the entry is found with the new status
   * and error, the labels gain the one label, other labels find what they found before,
   * and uniqueness and (for a final status) the absence of 'processing' entries are kept.
   */
  lemma UpsertFacts(log: seq<LogEntry>, name: string, status: Status, error: Option<string>)
    ensures var r := Upsert(log, name, status, error);
      && Lookup(r, name) == Some(LogEntry(name, status, error))
      && Labels(r) == Labels(log) + {name}
      && (forall other :: other != name ==> Lookup(r, other) == Lookup(log, other))
      && (UniqueLabels(log) ==> UniqueLabels(r))
      && (NoneProcessing(log) && status != Processing ==> NoneProcessing(r))
  {
    UpsertSpec(log, name, status, error);
    forall other | other != name
      ensures Lookup(Upsert(log, name, status, error), other) == Lookup(log, other)
    {
      UpsertOthers(log, name, status, error, other);
    }
    if UniqueLabels(log) {
      UpsertKeepsUnique(log, name, status, error);
    }
    if NoneProcessing(log) && status != Processing {
      UpsertKeepsNoneProcessing(log, name, status, error);
    }
  }

  lemma NoneProcessingCons(e: LogEntry, log: seq<LogEntry>)
    ensures NoneProcessing([e] + log) <==> e.status != Processing && NoneProcessing(log)
  {
    var l := [e] + log;
    assert l[0] == e;
    assert forall i :: 0 <= i < |log| ==> l[i + 1] == log[i];
  }

  lemma LabelsCons(log: seq<LogEntry>)
    requires log != []
    ensures Labels(log) == {log[0].name} + Labels(log[1..])
  {
    assert forall e :: e in log <==> e == log[0] || e in log[1..];
  }

  /** A log with unique labels has exactly as many entries as labels. */
  lemma {:induction false} UniqueLabelsCount(log: seq<LogEntry>)
    requires UniqueLabels(log)
    ensures |Labels(log)| == |log|
  {
    if log != [] {
      var rest := log[1..];
      assert UniqueLabels(rest);
      UniqueLabelsCount(rest);
      LabelsCons(log);
      assert log[0].name !in Labels(rest) by {
        forall e | e in rest ensures e.name != log[0].name {
          var m :| 0 <= m < |rest| && rest[m] == e;
          assert log[m + 1] == e;
        }
      }
    }
  }

  /** A log with unique labels drawn from `s` has at most |s| entries. */
  lemma LogBound(log: seq<LogEntry>, s: set<string>)
    requires UniqueLabels(log) && Labels(log) <= s
    ensures |log| <= |s|
  {
    UniqueLabelsCount(log);
    SubsetCard(Labels(log), s);
  }

  lemma {:induction false} SubsetCard(a: set<string>, b: set<string>)
    requires a <= b
    ensures |a| <= |b|
  {
    if a != {} {
      var x :| x in a;
      SubsetCard(a - {x}, b - {x});
    }
  }

  // ---------------------------------------------------------------------------
  // A sequence of upserts.
  // ---------------------------------------------------------------------------

  /** The entries `es` upserted one after another, in order. */
  function UpsertAll(log: seq<LogEntry>, es: seq<LogEntry>): seq<LogEntry>
    decreases |es|
  {
    if es == [] then log else UpsertAll(Upsert(log, es[0].name, es[0].status, es[0].error), es[1..])
  }

  lemma UpsertAllCons(log: seq<LogEntry>, e: LogEntry, es: seq<LogEntry>)
    ensures UpsertAll(log, [e] + es) == UpsertAll(Upsert(log, e.name, e.status, e.error), es)
  {
    assert ([e] + es)[0] == e && ([e] + es)[1..] == es;
  }

  /** The upserts add exactly the names of the entries to the labels. */
  lemma {:induction false} UpsertAllLabels(log: seq<LogEntry>, es: seq<LogEntry>)
    ensures Labels(UpsertAll(log, es)) == Labels(log) + Labels(es)
    decreases |es|
  {
    if es != [] {
      var next := Upsert(log, es[0].name, es[0].status, es[0].error);
      UpsertLabels(log, es[0].name, es[0].status, es[0].error);
      LabelsCons(es);
      UpsertAllLabels(next, es[1..]);
    } else {
      assert Labels(es) == {};
    }
  }

  /** The upserts keep the labels unique. */
  lemma {:induction false} UpsertAllUnique(log: seq<LogEntry>, es: seq<LogEntry>)
    requires UniqueLabels(log)
    ensures UniqueLabels(UpsertAll(log, es))
    decreases |es|
  {
    if es != [] {
      UpsertKeepsUnique(log, es[0].name, es[0].status, es[0].error);
      UpsertAllUnique(Upsert(log, es[0].name, es[0].status, es[0].error), es[1..]);
    }
  }

  /** Upserting entries none of which is 'processing' adds no 'processing' entry. */
  lemma {:induction false} UpsertAllNoneProcessing(log: seq<LogEntry>, es: seq<LogEntry>)
    requires NoneProcessing(log) && NoneProcessing(es)
    ensures NoneProcessing(UpsertAll(log, es))
    decreases |es|
  {
    if es != [] {
      assert es[0].status != Processing;
      assert NoneProcessing(es[1..]) by {
        forall i | 0 <= i < |es| - 1 ensures es[1..][i].status != Processing {
          assert es[1..][i] == es[i + 1];
        }
      }
      UpsertKeepsNoneProcessing(log, es[0].name, es[0].status, es[0].error);
      UpsertAllNoneProcessing(Upsert(log, es[0].name, es[0].status, es[0].error), es[1..]);
    }
  }

  /** A name none of the entries has is found as it was before. */
  lemma {:induction false} UpsertAllOthers(log: seq<LogEntry>, es: seq<LogEntry>, name: string)
    requires name !in Labels(es)
    ensures Lookup(UpsertAll(log, es), name) == Lookup(log, name)
    decreases |es|
  {
    if es != [] {
      LabelsCons(es);
      UpsertOthers(log, es[0].name, es[0].status, es[0].error, name);
      UpsertAllOthers(Upsert(log, es[0].name, es[0].status, es[0].error), es[1..], name);
    }
  }
}
