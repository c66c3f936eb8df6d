# haplocounter, modelled in Dafny

haplocounter decides, for each cell barcode of a single-cell sequencing run,
whether its reads come from the X chromosome a mother transmitted or from the
one she kept. This project models its two pieces of real logic:

- `evidence.dfy` (module `Evidence`, from `src/evidence.rs`): the evidence
  table, a map barcode → site (contig id, position) → list of
  (evidence type, count) entries. `EvidenceTable` is a class whose `data`
  field `UpdateSiteData` reassigns. `BarcodeTally` is a class whose four
  counters `Update` adds to. `TallyBarcode` folds a barcode's sites into a
  tally, `HaplotypeClass` turns a tally into a label, and `Classify` labels
  every barcode. The specification is the set-based sum `Tally(sites, f)`.
  Lemmas prove that this sum does not depend on the order in which sites are
  visited or updates are made, and that the four counters add up to the total.
  The loops over the hash maps pick their next key with `:|`, which models
  the unspecified iteration order: their postconditions hold for every order.
- `haplocounter.dfy` (module `Haplocounter`, from `src/main.rs`): the rules
  that `main` applies to each variant record, pileup column and read. These
  are the contig check, the column-position filter, the mother's-genotype
  test, and the per-read barcode / query position / bounds / alt-length steps.
  Each loop level is a method proved equal to a specification function
  (`RunOutcome`, `ColumnsOutcome`, `ReadsOutcome`). Those functions chain
  per-step results with `Then`, which stops at the first `panic!`. A run's
  `Outcome` holds the observations printed before the panic and the panic itself.
- `wrappers.dfy`: the `Option` type.

The genomic I/O library is not modelled. Records, pileup columns and reads are
abstract values. The pileup fetch for (contig id, position) is a function
parameter `fetch`. A read's CB tag is `Option<Aux>`: `None` when the tag
lookup fails, `AuxString` or `AuxOther` otherwise. The mother's genotype is
already decoded.

Points where the code's behaviour is easy to misread:
- In src/main.rs a read with no CB tag is not skipped; it gets the barcode `""`.
- The per-read step of `main` only prints the (read base, alt base) pair.
  `main` never calls src/evidence.rs (the file is not even declared as a
  module), so the two modules of this model are not connected. `Observation`
  also keeps the barcode the code extracts, although the printed line omits it.
- Only sites whose maternal genotype is all `Unphased(0)` have their reads
  examined; at other sites no read is looked at.
- `rec.alleles()[1]` and `alt[0]` are unchecked indexing. They panic on a record
  with fewer than two alleles and on an empty alternate allele. These panics are
  modelled as the fatal errors `MissingAltAllele` and `EmptyAltAllele`.

## Model

| member | source | states |
|---|---|---|
| `Evidence.BarcodeTally.constructor` | src/evidence.rs:25-33 | the tally carries the given barcode and all four counters start at zero |
| `Evidence.BarcodeTally.Update` | src/evidence.rs:35-41 | the offset is added componentwise, in the order maternal, transmitted, reference, paternal; the barcode is unchanged |
| `Evidence.BarcodeTally.HaplotypeClass` | src/evidence.rs:43-49 | the label is Transmitted iff maternal <= transmitted and Maternal iff transmitted < maternal; so ties (0/0 included) give Transmitted, the label is never Reference or Paternal, and the reference and paternal counts play no part |
| `Evidence.EvidenceTable.constructor` | src/evidence.rs:53-56 | the table starts empty |
| `Evidence.Appended` | src/evidence.rs:58-80 | after an append, the list at (barcode, location) is the old list (or the empty list) followed by (evt, count); keys are only added, never removed; every other barcode and every other location of the barcode keep their lists |
| `Evidence.EvidenceTable.UpdateSiteData` | src/evidence.rs:58-80 | the new table is exactly the old one with that append; both `panic!` branches (barcode missing after the insert, location missing after `contains_key`) are proved unreachable |
| `Evidence.AppendedTally` | src/evidence.rs:58-80 | an append raises the barcode's tally by `count` in the counter of `evt` only, and leaves every other barcode's sites unchanged |
| `Evidence.EvidenceTable.SiteAdds` | src/evidence.rs:91-105 | the four per-site accumulators equal the sums of the counts of the entries of each type |
| `Evidence.EvidenceTable.TallyBarcode` | src/evidence.rs:88-109 | the tally is a new object carrying the given barcode, and each counter equals the sum over all sites of the counts of that type, whatever order the sites are visited in |
| `Evidence.SiteSumRemove` | src/evidence.rs:90-107 | any site can be summed first: the total over a set of sites does not depend on the visiting order |
| `Evidence.SumInOrderIndependent` | src/evidence.rs:90-107 | summing the sites in any order that visits each site exactly once gives the set-based total |
| `Evidence.TallySplits` | src/evidence.rs:89-108 | the four counters of a barcode's tally add up to the total of all counts stored for it |
| `Evidence.ApplyAllTally` | src/evidence.rs:58-109 | after a sequence of appends, a barcode's tally is its old tally plus the counts of the appends for that barcode and type |
| `Evidence.UpdatesSumPermutation` | src/evidence.rs:58-109 | the counts a sequence of appends brings to a barcode depend only on the multiset of appends |
| `Evidence.UpdateOrderIrrelevant` | src/evidence.rs:58-109 | applying the same appends in two different orders gives every barcode the same tally |
| `Evidence.Isolation` | src/evidence.rs:58-109 | appends for other barcodes never change a barcode's tally |
| `Evidence.EvidenceTable.Classify` | src/evidence.rs:111-117 | exactly one line per barcode key of the table, with no barcode twice, and each label is the haplotype class of that barcode's tally |
| `Evidence.ExampleRun` | src/evidence.rs:120-127 | in the example run, ACGTGA tallies 2 maternal, 0 transmitted and 1 reference and is labelled Maternal; ACGTTT tallies 1 transmitted and is labelled Transmitted |
| `Haplocounter.TransmittedOnly` | src/main.rs:67 | true iff every allele of the mother's genotype is Unphased(0); vacuously true for an empty genotype |
| `Haplocounter.ReadStep` | src/main.rs:72-101 | the read fails with NonStringBarcode exactly when its CB tag is present but not a string, whatever else it holds; otherwise a read without a query position is skipped; a query position at or past the read's end fails with ReadPosOutOfRange; an in-range read fails with MissingAltAllele exactly when the record has fewer than two alleles and with EmptyAltAllele exactly when the alternate allele is empty; a multi-base alternate allele skips the read; an observation is produced iff the position is in range and the alternate allele is one base long, and then it holds the read's base at that position, the site's one-base alternate allele, and the tag text or "" |
| `Haplocounter.CollectReads` | src/main.rs:70-102 | the loop over a column's reads returns what the read rules print, in order, up to and including the first panic |
| `Haplocounter.VisitColumns` | src/main.rs:58-109 | the loop over fetched columns examines only columns on the record's position; there it panics when the genotypes cannot be read, and collects reads only when the genotype test holds |
| `Haplocounter.Run` | src/main.rs:50-110 | the loop over records panics on a record without a contig id, and otherwise visits the columns fetched for (contig, position); the result equals the specification `RunOutcome` |
| `Haplocounter.SkippedReadContributesNothing` | src/main.rs:84-97 | a skipped read yields no observation and processing continues as if the read were absent |
| `Haplocounter.MultiBaseAltPrintsNothing` | src/main.rs:95-97 | at a site with an alternate allele longer than one base no read yields an observation |
| `Haplocounter.ReadsPanicAtFirstFailure` | src/main.rs:72-94 | a column's reads panic with e exactly when e is the panic of the first read whose rules panic |
| `Haplocounter.WellFormedReadsAllObserved` | src/main.rs:70-101 | at an SNV site with no bad tag and no out-of-range position nothing panics, and each read with a query position prints exactly one observation carrying the site's alt base |
| `Haplocounter.OnlyColumnsAtRecordPosition` | src/main.rs:58-60 | the outcome of a fetch is the outcome of its columns on the record's position alone |
| `Haplocounter.RetainedSiteExaminesNoReads` | src/main.rs:66-105 | when the mother's genotype is not all Unphased(0), the site records no observation and nothing panics |
| `Haplocounter.MalformedRecordEndsRun` | src/main.rs:50-55 | a record with no contig id ends the run with a fatal error; what earlier records printed stands, and no later record is read |

## Left out

- Opening and reading the VCF and BAM files, `fetch`, pileup iteration, genotype and aux-tag decoding (src/main.rs:43-47, 57-59, 66) are foreign library calls. Their results are abstract inputs. Their own failures are not modelled: `rr.expect`, `p.unwrap()`, `rid2name(..).unwrap()` and the sample-id `unwrap()`.
- Command-line parsing with clap (src/main.rs:5-25). `name_proband` is never used.
- Printing: `prettyprint` and the `println!` format of the pairs and labels. `Classify` returns its lines as a sequence with no order promised; `Outcome.printed` holds only the observations of src/main.rs:100.
- The lines printed at src/main.rs:48 (the mother's sample id), 104 (the kept-maternal-homologue message) and 107 (the column depth) are not modelled at all.
- The unused `EvidenceType` and `PositionalEvidence` of src/main.rs:27-38, and the unused `tallies` vector in `classify`.
- Paternal mode: no code exists for it. `Paternal` is only an evidence type and a counter.
- The i32 counters and i32 `+=` are modelled as unbounded integers, so overflow is not modelled.
- Rust's ownership is not modelled: `classify` and `haplotype_class` take `self` by value. The `get_mut` reference into the nested map is modelled as reading the entry and writing it back.
