/** The flags kept up to date scan by scan are the ones a full recomputation would give. */
module Discrepancies {
  import opened Sums
  import opened Events
  import opened Receiving

  function ScanAll(lines: seq<ReceivedLine>, scans: seq<Scan>): seq<ReceivedLine> {
    if scans == [] then lines
    else ScanLine(ScanAll(lines, scans[..|scans| - 1]), scans[|scans| - 1])
  }

  function Scanned(sku: string, condition: Condition): Scan -> int {
    (s: Scan) => if s.sku == sku && s.condition == condition then s.quantity else 0
  }

  ghost predicate WasScanned(scans: seq<Scan>, sku: string) {
    exists i :: 0 <= i < |scans| && scans[i].sku == sku
  }

  /** One line per SKU and condition. */
  ghost predicate OneLineEach(lines: seq<ReceivedLine>) {
    forall i, j :: 0 <= i < j < |lines| ==> lines[i].sku != lines[j].sku || lines[i].condition != lines[j].condition
  }

  ghost predicate Fresh(lines: seq<ReceivedLine>) {
    OneLineEach(lines) && forall l :: l in lines ==> l.received == 0 && l.discrepancy == NoDiscrepancy
  }

  /** After the scans: flags right for scanned SKUs and untouched for others, quantities the sums of scans. */
  ghost predicate Tallied(lines: seq<ReceivedLine>, scans: seq<Scan>) {
    && OneLineEach(lines)
    && (forall l :: l in lines ==>
                      && l.received == SumBy(scans, Scanned(l.sku, l.condition))
                      && l.discrepancy == if WasScanned(scans, l.sku) then DiscrepancyFor(l, lines) else NoDiscrepancy)
    && forall s :: s in scans ==> exists l :: l in lines && l.sku == s.sku && l.condition == s.condition
  }

  /** Flags do not change what arrived. */
  lemma SameArrivals(a: seq<ReceivedLine>, b: seq<ReceivedLine>, sku: string)
    requires |a| == |b| && forall i :: 0 <= i < |a| ==> a[i] == b[i].(discrepancy := a[i].discrepancy)
    ensures SumBy(a, Arrived(sku)) == SumBy(b, Arrived(sku))
  {
    SumPairwise(a, b, Arrived(sku), Arrived(sku));
  }

  /** A scan leaves every other SKU's arrivals alone. */
  lemma AddScanArrivals(lines: seq<ReceivedLine>, s: Scan, sku: string)
    ensures SumBy(AddScan(lines, s), Arrived(sku))
         == SumBy(lines, Arrived(sku)) + if s.sku == sku then s.quantity else 0
  {
    var i := LineOf(lines, s.sku, s.condition);
    if i < |lines| {
      SumUpdate(lines, i, lines[i].(received := lines[i].received + s.quantity), Arrived(sku));
    } else {
      SumAppend(lines, ReceivedLine(s.sku, 0, s.quantity, s.condition, NoDiscrepancy), Arrived(sku));
    }
  }

  lemma AddScanLines(lines: seq<ReceivedLine>, s: Scan)
    requires OneLineEach(lines)
    ensures var added := AddScan(lines, s);
            && OneLineEach(added) && |lines| <= |added| <= |lines| + 1
            && (forall i :: 0 <= i < |lines| ==>
                              var own := lines[i].sku == s.sku && lines[i].condition == s.condition;
                              added[i] == lines[i].(received := lines[i].received + if own then s.quantity else 0))
            && (|added| > |lines| ==>
                  && added[|lines|] == ReceivedLine(s.sku, 0, s.quantity, s.condition, NoDiscrepancy)
                  && forall i :: 0 <= i < |lines| ==> lines[i].sku != s.sku || lines[i].condition != s.condition)
            && exists i :: 0 <= i < |added| && added[i].sku == s.sku && added[i].condition == s.condition
  {
    var added, i := AddScan(lines, s), LineOf(lines, s.sku, s.condition);
    assert added[i].sku == s.sku && added[i].condition == s.condition;
  }

  lemma WasScannedSnoc(scans: seq<Scan>, s: Scan, sku: string)
    ensures WasScanned(scans + [s], sku) <==> WasScanned(scans, sku) || s.sku == sku
  {
    var all := scans + [s];
    assert all[|scans|] == s && forall i :: 0 <= i < |scans| ==> all[i] == scans[i];
  }

  lemma {:induction false} NeverScanned(scans: seq<Scan>, sku: string, condition: Condition)
    requires forall s :: s in scans ==> s.sku != sku || s.condition != condition
    ensures SumBy(scans, Scanned(sku, condition)) == 0
  {
    SumZero(scans, Scanned(sku, condition));
  }

  lemma FirstScanOf(lines: seq<ReceivedLine>, scans: seq<Scan>, sku: string, condition: Condition)
    requires Tallied(lines, scans)
    requires forall i :: 0 <= i < |lines| ==> lines[i].sku != sku || lines[i].condition != condition
    ensures SumBy(scans, Scanned(sku, condition)) == 0
  {
    forall x | x in scans ensures x.sku != sku || x.condition != condition {
      var m :| m in lines && m.sku == x.sku && m.condition == x.condition;
      var k :| 0 <= k < |lines| && lines[k] == m;
    }
    NeverScanned(scans, sku, condition);
  }

  lemma TalliedAt(lines: seq<ReceivedLine>, scans: seq<Scan>, i: nat)
    requires Tallied(lines, scans) && i < |lines|
    ensures lines[i].received == SumBy(scans, Scanned(lines[i].sku, lines[i].condition))
  {
    assert lines[i] in lines;
  }

  lemma ScannedQuantity(lines: seq<ReceivedLine>, scans: seq<Scan>, s: Scan, i: nat)
    requires Tallied(lines, scans) && i < |ScanLine(lines, s)|
    ensures var l := ScanLine(lines, s)[i];
            l.received == SumBy(scans + [s], Scanned(l.sku, l.condition))
  {
    var l := ScanLine(lines, s)[i];
    AddScanLines(lines, s);
    SumAppend(scans, s, Scanned(l.sku, l.condition));
    if i < |lines| {
      TalliedAt(lines, scans, i);
    } else {
      FirstScanOf(lines, scans, s.sku, s.condition);
    }
  }

  /** Another SKU's line keeps both its flag and the flag a recomputation gives. */
  lemma OtherSkuKeepsFlag(lines: seq<ReceivedLine>, s: Scan, i: nat)
    requires OneLineEach(lines) && i < |ScanLine(lines, s)| && ScanLine(lines, s)[i].sku != s.sku
    ensures i < |lines| && ScanLine(lines, s)[i] == lines[i]
    ensures DiscrepancyFor(lines[i], ScanLine(lines, s)) == DiscrepancyFor(lines[i], lines)
  {
    var added, after := AddScan(lines, s), ScanLine(lines, s);
    AddScanLines(lines, s);
    SameArrivals(after, added, lines[i].sku);
    AddScanArrivals(lines, s, lines[i].sku);
  }

  lemma OwnSkuFlag(lines: seq<ReceivedLine>, s: Scan, i: nat)
    requires i < |ScanLine(lines, s)| && ScanLine(lines, s)[i].sku == s.sku
    ensures var l := ScanLine(lines, s)[i]; l.discrepancy == DiscrepancyFor(l, ScanLine(lines, s))
  {
    var added, after := AddScan(lines, s), ScanLine(lines, s);
    SameArrivals(after, added, s.sku);
    assert after[i] == added[i].(discrepancy := DiscrepancyFor(added[i], added));
  }

  lemma ScannedFlag(lines: seq<ReceivedLine>, scans: seq<Scan>, s: Scan, i: nat)
    requires Tallied(lines, scans) && i < |ScanLine(lines, s)|
    ensures var l := ScanLine(lines, s)[i];
            l.discrepancy
            == if WasScanned(scans + [s], l.sku) then DiscrepancyFor(l, ScanLine(lines, s)) else NoDiscrepancy
  {
    var l := ScanLine(lines, s)[i];
    WasScannedSnoc(scans, s, l.sku);
    if l.sku == s.sku {
      OwnSkuFlag(lines, s, i);
    } else {
      OtherSkuKeepsFlag(lines, s, i);
      assert lines[i] in lines;
    }
  }

  /** Every scan still has its line after one more. */
  lemma ScannedHasLine(lines: seq<ReceivedLine>, scans: seq<Scan>, s: Scan, x: Scan)
    requires Tallied(lines, scans) && x in scans + [s]
    ensures exists l :: l in ScanLine(lines, s) && l.sku == x.sku && l.condition == x.condition
  {
    var added, after := AddScan(lines, s), ScanLine(lines, s);
    AddScanLines(lines, s);
    if x in scans {
      var l :| l in lines && l.sku == x.sku && l.condition == x.condition;
      var k :| 0 <= k < |lines| && lines[k] == l;
      assert after[k] in after && after[k].sku == x.sku && after[k].condition == x.condition;
    } else {
      var k :| 0 <= k < |added| && added[k].sku == s.sku && added[k].condition == s.condition;
      assert after[k] in after && after[k].sku == x.sku && after[k].condition == x.condition;
    }
  }

  lemma ScanKeepsOneLineEach(lines: seq<ReceivedLine>, s: Scan)
    requires OneLineEach(lines)
    ensures OneLineEach(ScanLine(lines, s))
  {
    AddScanLines(lines, s);
  }

  lemma OneScan(lines: seq<ReceivedLine>, scans: seq<Scan>, s: Scan, after: seq<ReceivedLine>, all: seq<Scan>)
    requires Tallied(lines, scans) && after == ScanLine(lines, s) && all == scans + [s]
    ensures Tallied(after, all)
  {
    ScanKeepsOneLineEach(lines, s);
    forall l | l in after
      ensures l.received == SumBy(all, Scanned(l.sku, l.condition))
      ensures l.discrepancy == if WasScanned(all, l.sku) then DiscrepancyFor(l, after) else NoDiscrepancy
    {
      var i :| 0 <= i < |after| && after[i] == l;
      ScannedQuantity(lines, scans, s, i);
      ScannedFlag(lines, scans, s, i);
    }
    forall x | x in all ensures exists l :: l in after && l.sku == x.sku && l.condition == x.condition {
      ScannedHasLine(lines, scans, s, x);
    }
  }

  lemma ScanAllSnoc(lines: seq<ReceivedLine>, scans: seq<Scan>)
    requires scans != []
    ensures var init, last := scans[..|scans| - 1], scans[|scans| - 1];
            scans == init + [last] && ScanAll(lines, scans) == ScanLine(ScanAll(lines, init), last)
  {
  }

  lemma FreshIsTallied(lines: seq<ReceivedLine>)
    requires Fresh(lines)
    ensures Tallied(lines, [])
  {
    forall l | l in lines ensures !WasScanned([], l.sku) {
    }
  }

  /**
   After any sequence of scans of a freshly opened note, every line of every
   scanned SKU carries the flag a recomputation over the whole note gives, and
   every line's quantity is the sum of its scans.
   */
  lemma {:induction false} ScansKeepTally(lines: seq<ReceivedLine>, scans: seq<Scan>)
    requires Fresh(lines)
    ensures Tallied(ScanAll(lines, scans), scans)
  {
    if scans == [] {
      FreshIsTallied(lines);
    } else {
      ScansKeepTally(lines, scans[..|scans| - 1]);
      ScanAllSnoc(lines, scans);
      OneScan(ScanAll(lines, scans[..|scans| - 1]), scans[..|scans| - 1], scans[|scans| - 1],
              ScanAll(lines, scans), scans);
    }
  }

  // ---- Finalizing ----

  /** What a note opened on a delivery asks for: one good line per SKU still outstanding. */
  ghost predicate AsksForGoods(lines: seq<ReceivedLine>) {
    Fresh(lines) && forall l :: l in lines ==> l.ordered > 0 && l.condition == Good
  }

  lemma {:induction false} OpenedNoteAsksForGoods(expected: seq<DeliveryLine>)
    requires forall i, j :: 0 <= i < j < |expected| ==> expected[i].sku != expected[j].sku
    ensures AsksForGoods(Outstanding(expected))
    ensures forall l :: l in Outstanding(expected) ==> exists i :: 0 <= i < |expected| && expected[i].sku == l.sku
  {
    if expected != [] {
      var init := expected[..|expected| - 1];
      OpenedNoteAsksForGoods(init);
      forall l | l in Outstanding(init) ensures exists i :: 0 <= i < |expected| - 1 && expected[i].sku == l.sku {
        var i :| 0 <= i < |init| && init[i].sku == l.sku;
        assert expected[i].sku == l.sku;
      }
    }
  }

  /** Lines of SKUs nobody scanned are the note's own. */
  lemma {:induction false} UnscannedLinesAreOriginal(lines: seq<ReceivedLine>, scans: seq<Scan>, sku: string)
    requires OneLineEach(lines) && !WasScanned(scans, sku)
    ensures OneLineEach(ScanAll(lines, scans))
    ensures forall l :: l in ScanAll(lines, scans) && l.sku == sku ==> l in lines
  {
    if scans != [] {
      var n := |scans| - 1;
      assert scans == scans[..n] + [scans[n]];
      WasScannedSnoc(scans[..n], scans[n], sku);
      UnscannedLinesAreOriginal(lines, scans[..n], sku);
      ScanLeavesOthers(ScanAll(lines, scans[..n]), scans[n], sku);
    }
  }

  lemma ScanLeavesOthers(lines: seq<ReceivedLine>, s: Scan, sku: string)
    requires OneLineEach(lines) && s.sku != sku
    ensures OneLineEach(ScanLine(lines, s))
    ensures forall l :: l in ScanLine(lines, s) && l.sku == sku ==> l in lines
  {
    AddScanLines(lines, s);
    forall l | l in ScanLine(lines, s) && l.sku == sku ensures l in lines {
      var i :| 0 <= i < |ScanLine(lines, s)| && ScanLine(lines, s)[i] == l;
      OtherSkuKeepsFlag(lines, s, i);
    }
  }

  lemma NothingArrivedOf(lines: seq<ReceivedLine>, sku: string)
    requires forall l :: l in lines && l.sku == sku ==> l.received == 0
    ensures SumBy(lines, Arrived(sku)) == 0
  {
    SumZero(lines, Arrived(sku));
  }

  /** Recomputing a scanned line gives the flag it has. */
  lemma ScannedKeepsFlag(tally: seq<ReceivedLine>, scans: seq<Scan>, i: nat)
    requires Tallied(tally, scans) && i < |tally| && WasScanned(scans, tally[i].sku)
    ensures Flagged(tally)[i] == tally[i]
  {
    assert tally[i] in tally;
  }

  /** A line nobody scanned asks for goods, holds nothing and has no flag yet. */
  lemma UnscannedBecomesShort(blank: seq<ReceivedLine>, scans: seq<Scan>, i: nat)
    requires AsksForGoods(blank) && i < |ScanAll(blank, scans)|
    requires !WasScanned(scans, ScanAll(blank, scans)[i].sku)
    ensures var tally := ScanAll(blank, scans);
            tally[i].discrepancy == NoDiscrepancy && Flagged(tally)[i] == tally[i].(discrepancy := Shortage)
  {
    var tally := ScanAll(blank, scans);
    UnscannedLinesAreOriginal(blank, scans, tally[i].sku);
    NothingArrivedOf(tally, tally[i].sku);
    assert tally[i] in tally;
  }

  /**
   Finalizing a note recomputes every flag, and that changes exactly the lines
   of SKUs nobody scanned: each becomes a shortage.
   */
  lemma FinalizeFlagsTheUnscanned(expected: seq<DeliveryLine>, scans: seq<Scan>, i: nat)
    requires forall i, j :: 0 <= i < j < |expected| ==> expected[i].sku != expected[j].sku
    requires i < |ScanAll(Outstanding(expected), scans)|
    ensures var tally := ScanAll(Outstanding(expected), scans);
            && (Flagged(tally)[i] != tally[i] <==> !WasScanned(scans, tally[i].sku))
            && (Flagged(tally)[i] != tally[i] ==> Flagged(tally)[i] == tally[i].(discrepancy := Shortage))
  {
    var blank := Outstanding(expected);
    OpenedNoteAsksForGoods(expected);
    var tally := ScanAll(blank, scans);
    if WasScanned(scans, tally[i].sku) {
      ScansKeepTally(blank, scans);
      ScannedKeepsFlag(tally, scans, i);
    } else {
      UnscannedBecomesShort(blank, scans, i);
    }
  }

  // ---- Flags and scans ----

  /** Everything scanned of a SKU, in whatever condition. */
  function ScannedOf(sku: string): Scan -> int {
    (s: Scan) => if s.sku == sku then s.quantity else 0
  }

  lemma {:induction false} ArrivedIsScanned(lines: seq<ReceivedLine>, scans: seq<Scan>, sku: string)
    requires Fresh(lines)
    ensures SumBy(ScanAll(lines, scans), Arrived(sku)) == SumBy(scans, ScannedOf(sku))
  {
    if scans == [] {
      SumZero(lines, Arrived(sku));
    } else {
      var before, last := ScanAll(lines, scans[..|scans| - 1]), scans[|scans| - 1];
      ArrivedIsScanned(lines, scans[..|scans| - 1], sku);
      SameArrivals(ScanLine(before, last), AddScan(before, last), sku);
      AddScanArrivals(before, last, sku);
    }
  }

  /** The flag a line should carry for what was scanned: units damaged, or good units missing or too many. */
  ghost predicate FlagFits(flag: Discrepancy, line: ReceivedLine, scans: seq<Scan>) {
    match line.condition
    case Damaged =>
      (flag == Damage <==> SumBy(scans, Scanned(line.sku, Damaged)) > 0) && flag in {Damage, NoDiscrepancy}
    case Good =>
      var scanned := SumBy(scans, ScannedOf(line.sku));
      && (flag == Shortage <==> scanned < line.ordered) && (flag == Overage <==> scanned > line.ordered)
      && flag in {Shortage, Overage, NoDiscrepancy}
  }

  /**
   Whatever was scanned, a finalized note flags each line for what the scans come
   to: damage where damaged units were scanned, and on a good line a shortage or
   overage of its SKU, counting good and damaged units together.
   */
  lemma FlagsTellTheScans(expected: seq<DeliveryLine>, scans: seq<Scan>, i: nat)
    requires forall i, j :: 0 <= i < j < |expected| ==> expected[i].sku != expected[j].sku
    requires i < |ScanAll(Outstanding(expected), scans)|
    ensures var flagged := Flagged(ScanAll(Outstanding(expected), scans));
            FlagFits(flagged[i].discrepancy, flagged[i], scans)
  {
    var blank := Outstanding(expected);
    OpenedNoteAsksForGoods(expected);
    ScansKeepTally(blank, scans);
    var tally := ScanAll(blank, scans);
    TalliedAt(tally, scans, i);
    ArrivedIsScanned(blank, scans, tally[i].sku);
  }
}
