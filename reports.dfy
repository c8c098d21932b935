/** The reports page: the diagnosis history, newest first
    (`[...diagnosisHistory].reverse()`). */
module ReportsPage {
  import opened Interfaces

  /** The history in the order the reports page lists it. */
  function NewestFirst(history: seq<DiagnosisEntry>): (r: seq<DiagnosisEntry>)
    ensures |r| == |history|
    ensures forall k :: 0 <= k < |r| ==> r[k] == history[|history| - 1 - k]
  {
    if history == [] then []
    else NewestFirst(history[1..]) + [history[0]]
  }

  /** The entry a diagnosis appends is the first report shown, and the
      earlier reports follow in their previous order. */
  lemma NewestOnTop(history: seq<DiagnosisEntry>, entry: DiagnosisEntry)
    ensures NewestFirst(history + [entry]) == [entry] + NewestFirst(history)
  {
    var r := NewestFirst(history + [entry]);
    var h := history + [entry];
    assert r[0] == entry;
    forall k | 0 < k < |r| ensures r[k] == NewestFirst(history)[k - 1] {
      assert r[k] == h[|h| - 1 - k];
    }
  }

  /** Reading the list newest-first twice gives back the stored order. */
  lemma NewestFirstTwice(history: seq<DiagnosisEntry>)
    ensures NewestFirst(NewestFirst(history)) == history
  {
  }
}
