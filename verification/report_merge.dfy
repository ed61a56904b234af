/** Assembly of the analysis report from the fragments the analysis service
    streams: each fragment is spread over the report received so far, so a
    property carried by a later fragment replaces the earlier value and a
    property a fragment does not carry keeps its value. */
module ReportMerge {
  import opened Types

  /** The empty report the assembly starts from. */
  const Empty: Report := map[]

  /** Spreads `partial` over `prev`: last write wins, property by property. */
  function Merge(prev: Report, partial: Report): (r: Report)
    ensures r.Keys == prev.Keys + partial.Keys
    ensures forall k :: k in partial ==> r[k] == partial[k]
    ensures forall k :: k in prev && k !in partial ==> r[k] == prev[k]
  {
    prev + partial
  }

  /** The report after the fragments `fs` have arrived in order: the left
      fold of Merge over `fs`, starting from the empty report. */
  function Assemble(fs: seq<Report>): (r: Report)
    ensures forall i :: 0 <= i < |fs| ==> fs[i].Keys <= r.Keys
    ensures |fs| > 0 ==> forall k :: k in fs[|fs| - 1] ==> r[k] == fs[|fs| - 1][k]
    ensures |fs| == 0 ==> r == Empty
  {
    if |fs| == 0 then Empty else Merge(Assemble(fs[..|fs| - 1]), fs[|fs| - 1])
  }

  /** The value of property `k` as the last fragment that carries it gives
      it, scanning forward; the reference definition of last-write-wins. */
  predicate LastWrite(fs: seq<Report>, k: Field, v: Value) {
    exists i :: 0 <= i < |fs| && k in fs[i] && fs[i][k] == v
                && forall j :: i < j < |fs| ==> k !in fs[j]
  }

  // ---------------------------------------------------------------------
  // Laws of a single merge

  /** Spreading the same fragment a second time changes nothing. */
  lemma MergeIdempotent(prev: Report, partial: Report)
    ensures Merge(Merge(prev, partial), partial) == Merge(prev, partial)
  {
  }

  /** Merging two fragments one after the other is merging the second over
      the first and the result over the report. */
  lemma MergeAssociative(a: Report, b: Report, c: Report)
    ensures Merge(Merge(a, b), c) == Merge(a, Merge(b, c))
  {
  }

  /** The empty fragment changes nothing, and a fragment spread over the
      empty report is that fragment. */
  lemma MergeEmpty(r: Report)
    ensures Merge(r, Empty) == r
    ensures Merge(Empty, r) == r
  {
  }

  /** Merge is not commutative: the order of arrival decides which value of
      a property survives. */
  lemma MergeOrderMatters()
    ensures Merge(map[ExecutiveSummary := Text("1")], map[ExecutiveSummary := Text("2")]) == map[ExecutiveSummary := Text("2")]
    ensures Merge(map[ExecutiveSummary := Text("2")], map[ExecutiveSummary := Text("1")]) == map[ExecutiveSummary := Text("1")]
    ensures Merge(map[ExecutiveSummary := Text("1")], map[ExecutiveSummary := Text("2")])
         != Merge(map[ExecutiveSummary := Text("2")], map[ExecutiveSummary := Text("1")])
  {
    var a := Merge(map[ExecutiveSummary := Text("1")], map[ExecutiveSummary := Text("2")]);
    assert a[ExecutiveSummary] == Text("2");
  }

  // ---------------------------------------------------------------------
  // Laws of the assembled stream

  /** A property is in the assembled report exactly when some fragment
      carried it. */
  lemma {:induction false} AssembleKeys(fs: seq<Report>, k: Field)
    ensures k in Assemble(fs) <==> exists i :: 0 <= i < |fs| && k in fs[i]
    decreases |fs|
  {
    if |fs| > 0 {
      var n := |fs| - 1;
      var init := fs[..n];
      AssembleKeys(init, k);
      assert Assemble(fs) == Merge(Assemble(init), fs[n]);
      if k !in Assemble(fs) {
        forall i | 0 <= i < |fs| ensures k !in fs[i] {
          if i < n {
            assert init[i] == fs[i];
          }
        }
      } else if k !in fs[n] {
        var i :| 0 <= i < |init| && k in init[i];
        assert fs[i] == init[i];
      }
    }
  }

  /** The value of a property in the assembled report is the one the last
      fragment carrying it gave. */
  lemma {:induction false} AssembleIsLastWriteWins(fs: seq<Report>, k: Field)
    requires k in Assemble(fs)
    ensures LastWrite(fs, k, Assemble(fs)[k])
    decreases |fs|
  {
    var n := |fs| - 1;
    var init := fs[..n];
    assert Assemble(fs) == Merge(Assemble(init), fs[n]);
    if k in fs[n] {
      assert LastWrite(fs, k, fs[n][k]);
    } else {
      AssembleIsLastWriteWins(init, k);
      var i :| 0 <= i < |init| && k in init[i] && init[i][k] == Assemble(init)[k]
               && forall j :: i < j < |init| ==> k !in init[j];
      assert fs[i] == init[i];
      forall j | i < j < |fs| ensures k !in fs[j] {
        if j < n {
          assert fs[j] == init[j];
        }
      }
    }
  }

  /** The last-write value of a property is unique, so LastWrite is a
      function of the stream. */
  lemma LastWriteUnique(fs: seq<Report>, k: Field, v: Value, w: Value)
    requires LastWrite(fs, k, v) && LastWrite(fs, k, w)
    ensures v == w
  {
    var i :| 0 <= i < |fs| && k in fs[i] && fs[i][k] == v && forall j :: i < j < |fs| ==> k !in fs[j];
    var i' :| 0 <= i' < |fs| && k in fs[i'] && fs[i'][k] == w && forall j :: i' < j < |fs| ==> k !in fs[j];
    assert i == i';
  }

  /** Assembling a stream in two parts and merging the results is
      assembling it whole. */
  lemma {:induction false} AssembleAppend(fs: seq<Report>, gs: seq<Report>)
    ensures Assemble(fs + gs) == Merge(Assemble(fs), Assemble(gs))
    decreases |gs|
  {
    if |gs| == 0 {
      assert fs + gs == fs;
    } else {
      var n := |gs| - 1;
      assert (fs + gs)[..|fs + gs| - 1] == fs + gs[..n];
      AssembleAppend(fs, gs[..n]);
      MergeAssociative(Assemble(fs), Assemble(gs[..n]), gs[n]);
    }
  }

  /** Fragments already merged are never removed: every property present
      after a prefix of the stream is still present after a longer one, with
      its value unless a later fragment of the longer prefix replaced it. */
  lemma AssemblePrefixMonotone(fs: seq<Report>, i: nat, j: nat)
    requires i <= j <= |fs|
    ensures Assemble(fs[..i]).Keys <= Assemble(fs[..j]).Keys
    ensures forall k :: k in Assemble(fs[..i]) && (forall m :: i <= m < j ==> k !in fs[m]) ==>
                        Assemble(fs[..j])[k] == Assemble(fs[..i])[k]
  {
    assert fs[..j] == fs[..i] + fs[i..j];
    AssembleAppend(fs[..i], fs[i..j]);
    forall k | k in Assemble(fs[..i]) && (forall m :: i <= m < j ==> k !in fs[m])
      ensures k !in Assemble(fs[i..j])
    {
      AssembleKeys(fs[i..j], k);
    }
  }
}
