/**
 * The decision rules of `main` in src/main.rs: walk the variant records, look
 * at the pileup column sitting exactly on each record's position, and when the
 * mother's genotype is all reference (unphased 0), turn every read of that
 * column into a (barcode, read base, alt base) observation.
 *
 * The genomic file reader is not modelled: records and pileup columns are
 * abstract inputs, and the pileup fetch is the function parameter `fetch`.
 * A `panic!` ends the run; the observations printed before it remain
 * printed, so every level returns an `Outcome` holding both.
 */
module Haplocounter {
  import opened Wrappers

  /** One allele of a decoded genotype, as htslib's `GenotypeAllele`. */
  datatype GenotypeAllele = Unphased(index: int) | Phased(index: int) | UnphasedMissing | PhasedMissing

  /** The value of an auxiliary tag: a string, or any other tag type. */
  datatype Aux = AuxString(text: string) | AuxOther

  /**
   * One read of a pileup column: its CB tag (None when the lookup fails),
   * its query position at the column (None for a deletion or skip) and its bases.
   */
  datatype Alignment = Alignment(cbTag: Option<Aux>, qpos: Option<nat>, bases: seq<char>)

  datatype PileupColumn = PileupColumn(pos: nat, alignments: seq<Alignment>)

  /**
   * A variant record: contig id (None when the record has none), 0-based
   * position, alleles (reference first), and the mother's decoded genotype
   * (None when the genotypes cannot be read).
   */
  datatype VariantRecord = VariantRecord(
    rid: Option<nat>, pos: int, alleles: seq<seq<char>>, motherGenotype: Option<seq<GenotypeAllele>>)

  /** The conditions on which the program panics. */
  datatype Fatal =
    | MalformedRecord    // the record has no contig id
    | MissingGenotype    // the record's genotypes cannot be read
    | NonStringBarcode   // a CB tag that is not a string
    | ReadPosOutOfRange  // a query position at or past the read's end
    | MissingAltAllele   // alleles()[1] on a record with fewer than two alleles
    | EmptyAltAllele     // alt[0] on an empty alternate allele

  /** What the program prints for a read: the barcode it extracted, the read base and the alt base. */
  datatype Observation = Observation(barcode: string, base: char, alt: char)

  datatype ReadResult = Observed(obs: Observation) | Skipped | Failed(error: Fatal)

  /** The observations a stretch of the run prints, and the panic that ends it, if any. */
  datatype Outcome = Outcome(printed: seq<Observation>, failure: Option<Fatal>)

  const Clean := Outcome([], None)

  /** Runs `next` after `first`, unless `first` already panicked. */
  function Then(first: Outcome, next: Outcome): Outcome {
    if first.failure.Some? then first else Outcome(first.printed + next.printed, next.failure)
  }

  lemma ThenAssociative(a: Outcome, b: Outcome, c: Outcome)
    ensures Then(Then(a, b), c) == Then(a, Then(b, c))
  {
    if a.failure.None? && b.failure.None? {
      assert (a.printed + b.printed) + c.printed == a.printed + (b.printed + c.printed);
    }
  }

  /**
   * The genotype test: every allele of the mother's genotype is Unphased(0),
   * which makes the site one whose variant only the transmitted X carries.
   */
  function TransmittedOnly(gt: seq<GenotypeAllele>): (r: bool)
    ensures r <==> forall i :: 0 <= i < |gt| ==> gt[i] == Unphased(0)
  {
    gt == [] || (gt[0] == Unphased(0) && TransmittedOnly(gt[1..]))
  }

  /** The barcode of a read whose CB tag is usable: its text, or "" when the tag is absent. */
  function BarcodeText(tag: Option<Aux>): string
    requires tag.Some? ==> tag.value.AuxString?
  {
    if tag.Some? then tag.value.text else ""
  }

  predicate BadTag(aln: Alignment) {
    aln.cbTag.Some? && !aln.cbTag.value.AuxString?
  }

  /**
   * The rules for one read, in the order of the source: the CB tag, the query
   * position, its bounds, the alternate allele's length.
   */
  function ReadStep(aln: Alignment, alleles: seq<seq<char>>): (r: ReadResult)
    ensures r == Failed(NonStringBarcode) <==> BadTag(aln)
    ensures !BadTag(aln) && aln.qpos.None? ==> r == Skipped
    ensures r == Failed(ReadPosOutOfRange) <==> !BadTag(aln) && aln.qpos.Some? && aln.qpos.value >= |aln.bases|
    ensures r == Failed(MissingAltAllele) <==>
      !BadTag(aln) && aln.qpos.Some? && aln.qpos.value < |aln.bases| && |alleles| < 2
    ensures r == Failed(EmptyAltAllele) <==>
      !BadTag(aln) && aln.qpos.Some? && aln.qpos.value < |aln.bases| && |alleles| >= 2 && |alleles[1]| == 0
    ensures r.Skipped? <==>
      !BadTag(aln) && (aln.qpos.None? || (aln.qpos.value < |aln.bases| && |alleles| >= 2 && |alleles[1]| > 1))
    ensures r.Observed? <==>
      !BadTag(aln) && aln.qpos.Some? && aln.qpos.value < |aln.bases| && |alleles| >= 2 && |alleles[1]| == 1
    ensures r.Observed? ==>
      && r.obs.barcode == BarcodeText(aln.cbTag)
      && r.obs.base == aln.bases[aln.qpos.value]
      && alleles[1] == [r.obs.alt]
  {
    if BadTag(aln) then Failed(NonStringBarcode)
    else
      var barcode := BarcodeText(aln.cbTag);
      match aln.qpos
      case None => Skipped
      case Some(readpos) =>
        if readpos >= |aln.bases| then Failed(ReadPosOutOfRange)
        else if |alleles| < 2 then Failed(MissingAltAllele)
        else
          var alt := alleles[1];
          if |alt| > 1 then Skipped
          else if |alt| == 0 then Failed(EmptyAltAllele)
          else Observed(Observation(barcode, aln.bases[readpos], alt[0]))
  }

  function StepOutcome(r: ReadResult): Outcome {
    match r
    case Observed(o) => Outcome([o], None)
    case Skipped => Clean
    case Failed(e) => Outcome([], Some(e))
  }

  /** The reads of one column, in pileup order, stopping at the first panic. */
  function ReadsOutcome(alns: seq<Alignment>, alleles: seq<seq<char>>): Outcome {
    if alns == [] then Clean
    else Then(StepOutcome(ReadStep(alns[0], alleles)), ReadsOutcome(alns[1..], alleles))
  }

  /** One pileup column of a record's fetch. */
  function ColumnOutcome(rec: VariantRecord, col: PileupColumn): Outcome {
    if col.pos != rec.pos then Clean
    else match rec.motherGenotype
      case None => Outcome([], Some(MissingGenotype))
      case Some(gt) => if TransmittedOnly(gt) then ReadsOutcome(col.alignments, rec.alleles) else Clean
  }

  function ColumnsOutcome(rec: VariantRecord, cols: seq<PileupColumn>): Outcome {
    if cols == [] then Clean
    else Then(ColumnOutcome(rec, cols[0]), ColumnsOutcome(rec, cols[1..]))
  }

  /** One record: the contig check, then the columns the fetch returns for (contig, position). */
  function RecordOutcome(rec: VariantRecord, fetch: (nat, int) -> seq<PileupColumn>): Outcome {
    match rec.rid
    case None => Outcome([], Some(MalformedRecord))
    case Some(ctg) => ColumnsOutcome(rec, fetch(ctg, rec.pos))
  }

  function RunOutcome(records: seq<VariantRecord>, fetch: (nat, int) -> seq<PileupColumn>): Outcome {
    if records == [] then Clean
    else Then(RecordOutcome(records[0], fetch), RunOutcome(records[1..], fetch))
  }

  lemma {:induction false} ReadsOutcomeConcat(xs: seq<Alignment>, ys: seq<Alignment>, alleles: seq<seq<char>>)
    ensures ReadsOutcome(xs + ys, alleles) == Then(ReadsOutcome(xs, alleles), ReadsOutcome(ys, alleles))
    decreases |xs|
  {
    if xs == [] {
      assert xs + ys == ys;
    } else {
      assert (xs + ys)[1..] == xs[1..] + ys;
      ReadsOutcomeConcat(xs[1..], ys, alleles);
      ThenAssociative(StepOutcome(ReadStep(xs[0], alleles)), ReadsOutcome(xs[1..], alleles), ReadsOutcome(ys, alleles));
    }
  }

  /** A skipped read yields no observation, and the reads after it are processed as if it were absent. */
  lemma SkippedReadContributesNothing(pre: seq<Alignment>, aln: Alignment, post: seq<Alignment>, alleles: seq<seq<char>>)
    requires ReadStep(aln, alleles).Skipped?
    ensures ReadsOutcome(pre + [aln] + post, alleles) == ReadsOutcome(pre + post, alleles)
  {
    ReadsOutcomeConcat(pre + [aln], post, alleles);
    ReadsOutcomeConcat(pre, [aln], alleles);
    ReadsOutcomeConcat(pre, post, alleles);
    assert ReadsOutcome([aln], alleles) == Clean;
  }

  /** At a site whose alternate allele is longer than one base no read yields an observation. */
  lemma {:induction false} MultiBaseAltPrintsNothing(alns: seq<Alignment>, alleles: seq<seq<char>>)
    requires |alleles| >= 2 && |alleles[1]| > 1
    ensures ReadsOutcome(alns, alleles).printed == []
    decreases |alns|
  {
    if alns != [] {
      MultiBaseAltPrintsNothing(alns[1..], alleles);
    }
  }

  /** Read i is the first read of alns whose rules panic, and it panics with e. */
  predicate FailsFirstAt(alns: seq<Alignment>, alleles: seq<seq<char>>, i: int, e: Fatal) {
    && 0 <= i < |alns|
    && ReadStep(alns[i], alleles) == Failed(e)
    && forall j :: 0 <= j < i ==> !ReadStep(alns[j], alleles).Failed?
  }

  /** The reads of a column panic with e exactly when e is the panic of the first read that panics. */
  lemma {:induction false} ReadsPanicAtFirstFailure(alns: seq<Alignment>, alleles: seq<seq<char>>, e: Fatal)
    ensures ReadsOutcome(alns, alleles).failure == Some(e) <==> exists i :: FailsFirstAt(alns, alleles, i, e)
    decreases |alns|
  {
    if alns != [] {
      ReadsPanicAtFirstFailure(alns[1..], alleles, e);
      var head := ReadStep(alns[0], alleles);
      if ReadsOutcome(alns, alleles).failure == Some(e) {
        if head.Failed? {
          assert FailsFirstAt(alns, alleles, 0, e);
        } else {
          var i :| FailsFirstAt(alns[1..], alleles, i, e);
          forall j | 0 <= j < i + 1 ensures !ReadStep(alns[j], alleles).Failed? {
            if j > 0 { assert alns[j] == alns[1..][j - 1]; }
          }
          assert FailsFirstAt(alns, alleles, i + 1, e);
        }
      }
      if i :| FailsFirstAt(alns, alleles, i, e) {
        if i > 0 {
          assert !head.Failed?;
          forall j | 0 <= j < i - 1 ensures !ReadStep(alns[1..][j], alleles).Failed? {
            assert alns[1..][j] == alns[j + 1];
          }
          assert FailsFirstAt(alns[1..], alleles, i - 1, e);
        }
      }
    }
  }

  /** The reads of alns that have a query position. */
  function PositionedReads(alns: seq<Alignment>): nat {
    if alns == [] then 0 else (if alns[0].qpos.Some? then 1 else 0) + PositionedReads(alns[1..])
  }

  /**
   * At an SNV site, when no read has a non-string CB tag or an out-of-range
   * query position, nothing panics and every read with a query position
   * prints exactly one observation, carrying the site's alternate base.
   */
  lemma {:induction false} WellFormedReadsAllObserved(alns: seq<Alignment>, alleles: seq<seq<char>>)
    requires |alleles| >= 2 && |alleles[1]| == 1
    requires forall i :: 0 <= i < |alns| ==> !BadTag(alns[i])
    requires forall i :: 0 <= i < |alns| && alns[i].qpos.Some? ==> alns[i].qpos.value < |alns[i].bases|
    ensures ReadsOutcome(alns, alleles).failure.None?
    ensures |ReadsOutcome(alns, alleles).printed| == PositionedReads(alns)
    ensures forall k :: 0 <= k < |ReadsOutcome(alns, alleles).printed| ==> ReadsOutcome(alns, alleles).printed[k].alt == alleles[1][0]
    decreases |alns|
  {
    if alns != [] {
      assert forall i :: 0 <= i < |alns[1..]| ==> alns[1..][i] == alns[i + 1];
      WellFormedReadsAllObserved(alns[1..], alleles);
    }
  }

  /** The columns of cols that sit on position pos. */
  function AtPosition(cols: seq<PileupColumn>, pos: int): (r: seq<PileupColumn>)
    ensures forall i :: 0 <= i < |r| ==> r[i].pos == pos
    ensures |r| <= |cols|
  {
    if cols == [] then []
    else (if cols[0].pos == pos then [cols[0]] else []) + AtPosition(cols[1..], pos)
  }

  /** Only the columns on the record's own position are examined; the others are passed over. */
  lemma {:induction false} OnlyColumnsAtRecordPosition(rec: VariantRecord, cols: seq<PileupColumn>)
    ensures ColumnsOutcome(rec, cols) == ColumnsOutcome(rec, AtPosition(cols, rec.pos))
    decreases |cols|
  {
    if cols != [] {
      OnlyColumnsAtRecordPosition(rec, cols[1..]);
      if cols[0].pos == rec.pos {
        assert AtPosition(cols, rec.pos) == [cols[0]] + AtPosition(cols[1..], rec.pos);
        assert ([cols[0]] + AtPosition(cols[1..], rec.pos))[1..] == AtPosition(cols[1..], rec.pos);
      } else {
        assert AtPosition(cols, rec.pos) == AtPosition(cols[1..], rec.pos);
      }
    }
  }

  /** When the mother's genotype is not all Unphased(0), no read of the site is examined. */
  lemma {:induction false} RetainedSiteExaminesNoReads(rec: VariantRecord, cols: seq<PileupColumn>)
    requires rec.motherGenotype.Some? && !TransmittedOnly(rec.motherGenotype.value)
    ensures ColumnsOutcome(rec, cols) == Clean
    decreases |cols|
  {
    if cols != [] {
      RetainedSiteExaminesNoReads(rec, cols[1..]);
    }
  }

  lemma {:induction false} RunOutcomeConcat(xs: seq<VariantRecord>, ys: seq<VariantRecord>, fetch: (nat, int) -> seq<PileupColumn>)
    ensures RunOutcome(xs + ys, fetch) == Then(RunOutcome(xs, fetch), RunOutcome(ys, fetch))
    decreases |xs|
  {
    if xs == [] {
      assert xs + ys == ys;
    } else {
      assert (xs + ys)[1..] == xs[1..] + ys;
      RunOutcomeConcat(xs[1..], ys, fetch);
      ThenAssociative(RecordOutcome(xs[0], fetch), RunOutcome(xs[1..], fetch), RunOutcome(ys, fetch));
    }
  }

  /**
   * A record without a contig id ends the run: what the records before it
   * printed stands, unless one of them panicked first, and no later record is read.
   */
  lemma MalformedRecordEndsRun(records: seq<VariantRecord>, i: int, fetch: (nat, int) -> seq<PileupColumn>)
    requires 0 <= i < |records| && records[i].rid.None?
    ensures RunOutcome(records, fetch) == Then(RunOutcome(records[..i], fetch), Outcome([], Some(MalformedRecord)))
  {
    assert records == records[..i] + records[i..];
    RunOutcomeConcat(records[..i], records[i..], fetch);
  }

  /** The loop over the alignments of one column. */
  method CollectReads(alns: seq<Alignment>, alleles: seq<seq<char>>) returns (out: Outcome)
    ensures out == ReadsOutcome(alns, alleles)
  {
    var printed: seq<Observation> := [];
    var i := 0;
    while i < |alns|
      invariant 0 <= i <= |alns|
      invariant Then(Outcome(printed, None), ReadsOutcome(alns[i..], alleles)) == ReadsOutcome(alns, alleles)
    {
      var aln := alns[i];
      ThenAssociative(Outcome(printed, None), StepOutcome(ReadStep(aln, alleles)), ReadsOutcome(alns[i + 1..], alleles));
      assert alns[i..][1..] == alns[i + 1..];
      i := i + 1;
      var barcode: string;
      match aln.cbTag {
        case Some(AuxString(s)) => barcode := s;
        case Some(AuxOther) => return Outcome(printed, Some(NonStringBarcode));
        case None => barcode := "";
      }
      if aln.qpos.None? {
        continue;
      }
      var readpos := aln.qpos.value;
      if readpos >= |aln.bases| {
        return Outcome(printed, Some(ReadPosOutOfRange));
      }
      var nt := aln.bases[readpos];
      if |alleles| < 2 {
        return Outcome(printed, Some(MissingAltAllele));
      }
      var alt := alleles[1];
      if |alt| > 1 {
        continue;
      }
      if |alt| == 0 {
        return Outcome(printed, Some(EmptyAltAllele));
      }
      printed := printed + [Observation(barcode, nt, alt[0])];
    }
    out := Outcome(printed, None);
  }

  /** The loop over the pileup columns fetched for one record. */
  method VisitColumns(rec: VariantRecord, cols: seq<PileupColumn>) returns (out: Outcome)
    ensures out == ColumnsOutcome(rec, cols)
  {
    var printed: seq<Observation> := [];
    var i := 0;
    while i < |cols|
      invariant 0 <= i <= |cols|
      invariant Then(Outcome(printed, None), ColumnsOutcome(rec, cols[i..])) == ColumnsOutcome(rec, cols)
    {
      var col := cols[i];
      ThenAssociative(Outcome(printed, None), ColumnOutcome(rec, col), ColumnsOutcome(rec, cols[i + 1..]));
      assert cols[i..][1..] == cols[i + 1..];
      i := i + 1;
      if col.pos == rec.pos {
        if rec.motherGenotype.None? {
          return Outcome(printed, Some(MissingGenotype));
        }
        if TransmittedOnly(rec.motherGenotype.value) {
          var fromReads := CollectReads(col.alignments, rec.alleles);
          if fromReads.failure.Some? {
            return Outcome(printed + fromReads.printed, fromReads.failure);
          }
          printed := printed + fromReads.printed;
        }
      }
    }
    out := Outcome(printed, None);
  }

  /** The loop over the variant records. */
  method Run(records: seq<VariantRecord>, fetch: (nat, int) -> seq<PileupColumn>) returns (out: Outcome)
    ensures out == RunOutcome(records, fetch)
  {
    var printed: seq<Observation> := [];
    var i := 0;
    while i < |records|
      invariant 0 <= i <= |records|
      invariant Then(Outcome(printed, None), RunOutcome(records[i..], fetch)) == RunOutcome(records, fetch)
    {
      var rec := records[i];
      ThenAssociative(Outcome(printed, None), RecordOutcome(rec, fetch), RunOutcome(records[i + 1..], fetch));
      assert records[i..][1..] == records[i + 1..];
      i := i + 1;
      if rec.rid.None? {
        return Outcome(printed, Some(MalformedRecord));
      }
      var ctg := rec.rid.value;
      var site := VisitColumns(rec, fetch(ctg, rec.pos));
      if site.failure.Some? {
        return Outcome(printed + site.printed, site.failure);
      }
      printed := printed + site.printed;
    }
    out := Outcome(printed, None);
  }
}
