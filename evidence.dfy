/**
 * The evidence table of src/evidence.rs: for every barcode, for every site
 * (contig id, position), the list of (evidence type, count) entries recorded
 * there, and the per-barcode tally and haplotype label derived from it.
 */
module Evidence {
  import opened Wrappers

  datatype EvidenceType = Maternal | Transmitted | Reference | Paternal

  /** A site: contig id (u32 in the source) and 0-based position (i64). */
  type Location = (nat, int)
  type Entry = (EvidenceType, int)
  /** The per-barcode sub-table. */
  type SiteTable = map<Location, seq<Entry>>
  type Table = map<string, SiteTable>

  /** Which entries a sum counts: those of one evidence type, or all of them. */
  datatype Filter = Only(kind: EvidenceType) | AnyType

  predicate Selects(f: Filter, e: EvidenceType) {
    f.AnyType? || f.kind == e
  }

  /** Sum of the counts of the entries the filter selects. */
  function EntrySum(entries: seq<Entry>, f: Filter): int
  {
    if entries == [] then 0
    else
      var last := entries[|entries| - 1];
      EntrySum(entries[..|entries| - 1], f) + (if Selects(f, last.0) then last.1 else 0)
  }

  /** Sum of EntrySum over a set of sites, taken in no particular order. */
  ghost function SiteSum(sites: SiteTable, keys: set<Location>, f: Filter): int
    requires keys <= sites.Keys
    decreases keys
  {
    if keys == {} then 0
    else
      var k :| k in keys;
      EntrySum(sites[k], f) + SiteSum(sites, keys - {k}, f)
  }

  /** What tally_barcode must find for one barcode: the sum over all of its sites. */
  ghost function Tally(sites: SiteTable, f: Filter): int {
    SiteSum(sites, sites.Keys, f)
  }

  /** Any site may be taken out of the sum first: the sum does not depend on the order. */
  lemma {:induction false} SiteSumRemove(sites: SiteTable, keys: set<Location>, k: Location, f: Filter)
    requires keys <= sites.Keys && k in keys
    ensures SiteSum(sites, keys, f) == EntrySum(sites[k], f) + SiteSum(sites, keys - {k}, f)
    decreases keys
  {
    var j :| j in keys && SiteSum(sites, keys, f) == EntrySum(sites[j], f) + SiteSum(sites, keys - {j}, f);
    if j != k {
      SiteSumRemove(sites, keys - {j}, k, f);
      SiteSumRemove(sites, keys - {k}, j, f);
      assert keys - {j} - {k} == keys - {k} - {j};
    }
  }

  /** The sum only reads the entry lists of the sites it ranges over. */
  lemma {:induction false} SiteSumFrame(sites: SiteTable, other: SiteTable, keys: set<Location>, f: Filter)
    requires keys <= sites.Keys && keys <= other.Keys
    requires forall l :: l in keys ==> sites[l] == other[l]
    ensures SiteSum(sites, keys, f) == SiteSum(other, keys, f)
    decreases keys
  {
    if keys != {} {
      var k :| k in keys;
      SiteSumRemove(sites, keys, k, f);
      SiteSumRemove(other, keys, k, f);
      SiteSumFrame(sites, other, keys - {k}, f);
    }
  }

  /** Within one entry list, the four per-type sums add up to the sum of all counts. */
  lemma {:induction false} EntrySumSplits(entries: seq<Entry>)
    ensures EntrySum(entries, AnyType)
         == EntrySum(entries, Only(Maternal)) + EntrySum(entries, Only(Transmitted))
          + EntrySum(entries, Only(Reference)) + EntrySum(entries, Only(Paternal))
  {
    if entries != [] {
      EntrySumSplits(entries[..|entries| - 1]);
    }
  }

  /** Over any set of sites, the four per-type sums add up to the sum of all counts. */
  lemma {:induction false} SiteSumSplits(sites: SiteTable, keys: set<Location>)
    requires keys <= sites.Keys
    ensures SiteSum(sites, keys, AnyType)
         == SiteSum(sites, keys, Only(Maternal)) + SiteSum(sites, keys, Only(Transmitted))
          + SiteSum(sites, keys, Only(Reference)) + SiteSum(sites, keys, Only(Paternal))
    decreases keys
  {
    if keys != {} {
      var k :| k in keys;
      SiteSumRemove(sites, keys, k, AnyType);
      SiteSumRemove(sites, keys, k, Only(Maternal));
      SiteSumRemove(sites, keys, k, Only(Transmitted));
      SiteSumRemove(sites, keys, k, Only(Reference));
      SiteSumRemove(sites, keys, k, Only(Paternal));
      EntrySumSplits(sites[k]);
      SiteSumSplits(sites, keys - {k});
    }
  }

  /** The four counters of a barcode's tally add up to every count stored for it. */
  lemma TallySplits(sites: SiteTable)
    ensures Tally(sites, AnyType)
         == Tally(sites, Only(Maternal)) + Tally(sites, Only(Transmitted))
          + Tally(sites, Only(Reference)) + Tally(sites, Only(Paternal))
  {
    SiteSumSplits(sites, sites.Keys);
  }

  /** Sum over the sites in a given visiting order. */
  function SumInOrder(sites: SiteTable, order: seq<Location>, f: Filter): int
    requires forall i :: 0 <= i < |order| ==> order[i] in sites
  {
    if order == [] then 0 else EntrySum(sites[order[0]], f) + SumInOrder(sites, order[1..], f)
  }

  /** `order` visits every site of `keys` exactly once. */
  predicate Enumerates(order: seq<Location>, keys: set<Location>) {
    && (forall i :: 0 <= i < |order| ==> order[i] in keys)
    && (forall l :: l in keys ==> l in order)
    && (forall i, j :: 0 <= i < j < |order| ==> order[i] != order[j])
  }

  /** Whatever order a hash map iterates the sites in, the sum is the same. */
  lemma {:induction false} SumInOrderIndependent(sites: SiteTable, order: seq<Location>, keys: set<Location>, f: Filter)
    requires keys <= sites.Keys && Enumerates(order, keys)
    ensures SumInOrder(sites, order, f) == SiteSum(sites, keys, f)
    decreases |order|
  {
    if order == [] {
      assert keys == {};
    } else {
      var k := order[0];
      SiteSumRemove(sites, keys, k, f);
      var rest := order[1..];
      assert Enumerates(rest, keys - {k}) by {
        forall l | l in keys - {k} ensures l in rest {
          assert l in order;
          var i :| 0 <= i < |order| && order[i] == l;
          assert i != 0;
          assert rest[i - 1] == l;
        }
        forall i | 0 <= i < |rest| ensures rest[i] in keys - {k} {
          assert rest[i] == order[i + 1];
        }
      }
      SumInOrderIndependent(sites, rest, keys - {k}, f);
    }
  }

  /** The sub-table of a barcode, empty when the barcode has none. */
  function SitesOf(table: Table, barcode: string): SiteTable {
    if barcode in table then table[barcode] else map[]
  }

  /** The entry list at one site of one barcode, empty when there is none. */
  function EntriesAt(table: Table, barcode: string, location: Location): seq<Entry> {
    var sites := SitesOf(table, barcode);
    if location in sites then sites[location] else []
  }

  /** The table after appending (evt, count) at (barcode, location). */
  function Appended(table: Table, barcode: string, location: Location, count: int, evt: EvidenceType): (r: Table)
    ensures r.Keys == table.Keys + {barcode}
    ensures r[barcode].Keys == SitesOf(table, barcode).Keys + {location}
    ensures r[barcode][location] == EntriesAt(table, barcode, location) + [(evt, count)]
    ensures forall b :: b in table && b != barcode ==> r[b] == table[b]
    ensures forall l :: l in SitesOf(table, barcode) && l != location ==> r[barcode][l] == table[barcode][l]
  {
    var sites := SitesOf(table, barcode);
    table[barcode := sites[location := EntriesAt(table, barcode, location) + [(evt, count)]]]
  }

  /**
   * An append raises the barcode's tally by `count` in the counter of `evt`
   * (and in the all-types total) and leaves every other barcode's sub-table alone.
   */
  lemma AppendedTally(table: Table, barcode: string, location: Location, count: int, evt: EvidenceType, f: Filter)
    ensures Tally(SitesOf(Appended(table, barcode, location, count, evt), barcode), f)
         == Tally(SitesOf(table, barcode), f) + (if Selects(f, evt) then count else 0)
    ensures forall b :: b != barcode ==> SitesOf(Appended(table, barcode, location, count, evt), b) == SitesOf(table, b)
  {
    var before := SitesOf(table, barcode);
    var after := Appended(table, barcode, location, count, evt)[barcode];
    var w := if Selects(f, evt) then count else 0;
    var entries := EntriesAt(table, barcode, location);
    assert (entries + [(evt, count)])[..|entries|] == entries;
    assert EntrySum(after[location], f) == EntrySum(entries, f) + w;
    SiteSumRemove(after, after.Keys, location, f);
    SiteSumFrame(after, before, after.Keys - {location}, f);
    if location in before {
      SiteSumRemove(before, before.Keys, location, f);
      assert after.Keys - {location} == before.Keys - {location};
    } else {
      assert after.Keys - {location} == before.Keys;
      assert entries == [];
    }
  }

  /** One call of update_site_data: barcode, location, count, evidence type. */
  datatype SiteAppend = SiteAppend(barcode: string, location: Location, count: int, evt: EvidenceType)

  /** The table after a sequence of updates, applied in order. */
  function ApplyAll(table: Table, updates: seq<SiteAppend>): Table
    decreases |updates|
  {
    if updates == [] then table
    else
      var u := updates[0];
      ApplyAll(Appended(table, u.barcode, u.location, u.count, u.evt), updates[1..])
  }

  /** The counts the updates bring to barcode `b` under filter `f`. */
  function UpdatesSum(updates: seq<SiteAppend>, b: string, f: Filter): int
  {
    if updates == [] then 0
    else
      var u := updates[0];
      (if u.barcode == b && Selects(f, u.evt) then u.count else 0) + UpdatesSum(updates[1..], b, f)
  }

  /** A barcode's tally after a run of updates is its old tally plus what the updates for it carry. */
  lemma {:induction false} ApplyAllTally(table: Table, updates: seq<SiteAppend>, b: string, f: Filter)
    ensures Tally(SitesOf(ApplyAll(table, updates), b), f) == Tally(SitesOf(table, b), f) + UpdatesSum(updates, b, f)
    decreases |updates|
  {
    if updates != [] {
      var u := updates[0];
      var next := Appended(table, u.barcode, u.location, u.count, u.evt);
      AppendedTally(table, u.barcode, u.location, u.count, u.evt, f);
      ApplyAllTally(next, updates[1..], b, f);
    }
  }

  lemma {:induction false} UpdatesSumConcat(xs: seq<SiteAppend>, ys: seq<SiteAppend>, b: string, f: Filter)
    ensures UpdatesSum(xs + ys, b, f) == UpdatesSum(xs, b, f) + UpdatesSum(ys, b, f)
    decreases |xs|
  {
    if xs == [] {
      assert xs + ys == ys;
    } else {
      assert (xs + ys)[1..] == xs[1..] + ys;
      UpdatesSumConcat(xs[1..], ys, b, f);
    }
  }

  /** Reordering the updates does not change what they bring to any barcode. */
  lemma {:induction false} UpdatesSumPermutation(xs: seq<SiteAppend>, ys: seq<SiteAppend>, b: string, f: Filter)
    requires multiset(xs) == multiset(ys)
    ensures UpdatesSum(xs, b, f) == UpdatesSum(ys, b, f)
    decreases |xs|
  {
    if xs != [] {
      var u := xs[0];
      assert u in multiset(ys);
      var i :| 0 <= i < |ys| && ys[i] == u;
      var rest := ys[..i] + ys[i + 1..];
      MultisetWithout(xs, ys, i);
      UpdatesSumPermutation(xs[1..], rest, b, f);
      UpdatesSumAt(ys, i, b, f);
    }
  }

  /** Taking the first element of xs and its match in ys out of both keeps the multisets equal. */
  lemma MultisetWithout<T>(xs: seq<T>, ys: seq<T>, i: int)
    requires multiset(xs) == multiset(ys) && xs != [] && 0 <= i < |ys| && ys[i] == xs[0]
    ensures multiset(xs[1..]) == multiset(ys[..i] + ys[i + 1..])
  {
    assert ys == ys[..i] + [ys[i]] + ys[i + 1..];
    assert xs == [xs[0]] + xs[1..];
    var rest := ys[..i] + ys[i + 1..];
    assert multiset(ys) == multiset(rest) + multiset([ys[i]]);
    assert multiset(xs) == multiset(xs[1..]) + multiset([xs[0]]);
    forall z ensures multiset(xs[1..])[z] == multiset(rest)[z] {
      assert multiset(xs)[z] == multiset(ys)[z];
    }
  }

  /** The sum over ys is the element at i plus the sum over ys without it. */
  lemma UpdatesSumAt(ys: seq<SiteAppend>, i: int, b: string, f: Filter)
    requires 0 <= i < |ys|
    ensures UpdatesSum(ys, b, f) == UpdatesSum([ys[i]], b, f) + UpdatesSum(ys[..i] + ys[i + 1..], b, f)
  {
    assert ys == ys[..i] + [ys[i]] + ys[i + 1..];
    UpdatesSumConcat(ys[..i] + [ys[i]], ys[i + 1..], b, f);
    UpdatesSumConcat(ys[..i], [ys[i]], b, f);
    UpdatesSumConcat(ys[..i], ys[i + 1..], b, f);
  }

  /**
   * The same updates applied in any two orders give every barcode the same tally,
   * although the entry lists themselves may hold them in different orders.
   */
  lemma UpdateOrderIrrelevant(table: Table, xs: seq<SiteAppend>, ys: seq<SiteAppend>, b: string, f: Filter)
    requires multiset(xs) == multiset(ys)
    ensures Tally(SitesOf(ApplyAll(table, xs), b), f) == Tally(SitesOf(ApplyAll(table, ys), b), f)
  {
    ApplyAllTally(table, xs, b, f);
    ApplyAllTally(table, ys, b, f);
    UpdatesSumPermutation(xs, ys, b, f);
  }

  /** Updates for other barcodes never change a barcode's tally. */
  lemma {:induction false} Isolation(table: Table, updates: seq<SiteAppend>, b: string, f: Filter)
    requires forall i :: 0 <= i < |updates| ==> updates[i].barcode != b
    ensures Tally(SitesOf(ApplyAll(table, updates), b), f) == Tally(SitesOf(table, b), f)
    decreases |updates|
  {
    ApplyAllTally(table, updates, b, f);
    UpdatesSumZero(updates, b, f);
  }

  lemma {:induction false} UpdatesSumZero(updates: seq<SiteAppend>, b: string, f: Filter)
    requires forall i :: 0 <= i < |updates| ==> updates[i].barcode != b
    ensures UpdatesSum(updates, b, f) == 0
    decreases |updates|
  {
    if updates != [] {
      UpdatesSumZero(updates[1..], b, f);
    }
  }

  /** The updates of the example run kept in a comment at the end of src/evidence.rs. */
  const ExampleUpdates: seq<SiteAppend> := [
    SiteAppend("ACGTGA", (20, 12334534), 1, Maternal),
    SiteAppend("ACGTGA", (20, 12334534), 1, Reference),
    SiteAppend("ACGTTT", (20, 12334112), 1, Transmitted),
    SiteAppend("ACGTGA", (20, 12312321), 1, Maternal)]

  /**
   * In that example barcode ACGTGA gets two maternal entries and one reference
   * entry over two sites and is labelled Maternal; ACGTTT gets one transmitted
   * entry and is labelled Transmitted.
   */
  lemma ExampleRun(t: Table)
    requires t == ApplyAll(map[], ExampleUpdates)
    ensures Tally(SitesOf(t, "ACGTGA"), Only(Maternal)) == 2
    ensures Tally(SitesOf(t, "ACGTGA"), Only(Transmitted)) == 0
    ensures Tally(SitesOf(t, "ACGTGA"), Only(Reference)) == 1
    ensures LabelOf(SitesOf(t, "ACGTGA"), Maternal)
    ensures Tally(SitesOf(t, "ACGTTT"), Only(Transmitted)) == 1
    ensures LabelOf(SitesOf(t, "ACGTTT"), Transmitted)
  {
    ExampleSums();
    ApplyAllTally(map[], ExampleUpdates, "ACGTGA", Only(Maternal));
    ApplyAllTally(map[], ExampleUpdates, "ACGTGA", Only(Transmitted));
    ApplyAllTally(map[], ExampleUpdates, "ACGTGA", Only(Reference));
    ApplyAllTally(map[], ExampleUpdates, "ACGTTT", Only(Maternal));
    ApplyAllTally(map[], ExampleUpdates, "ACGTTT", Only(Transmitted));
  }

  lemma ExampleSums()
    ensures UpdatesSum(ExampleUpdates, "ACGTGA", Only(Maternal)) == 2
    ensures UpdatesSum(ExampleUpdates, "ACGTGA", Only(Transmitted)) == 0
    ensures UpdatesSum(ExampleUpdates, "ACGTGA", Only(Reference)) == 1
    ensures UpdatesSum(ExampleUpdates, "ACGTTT", Only(Maternal)) == 0
    ensures UpdatesSum(ExampleUpdates, "ACGTTT", Only(Transmitted)) == 1
    ensures forall f: Filter :: Tally(SitesOf(map[], "ACGTGA"), f) == 0 && Tally(SitesOf(map[], "ACGTTT"), f) == 0
  {
  }

  /** The four counters of one barcode, as `BarcodeTally` in the source. */
  class BarcodeTally {
    var barcode: string
    var transmittedCount: int
    var maternalCount: int
    var referenceCount: int
    var paternalCount: int

    constructor (barcode: string)
      ensures this.barcode == barcode
      ensures transmittedCount == 0 && maternalCount == 0 && referenceCount == 0 && paternalCount == 0
    {
      this.barcode := barcode;
      transmittedCount := 0;
      maternalCount := 0;
      referenceCount := 0;
      paternalCount := 0;
    }

    /** Adds (maternal, transmitted, reference, paternal) componentwise. */
    method Update(offset: (int, int, int, int))
      modifies this
      ensures maternalCount == old(maternalCount) + offset.0
      ensures transmittedCount == old(transmittedCount) + offset.1
      ensures referenceCount == old(referenceCount) + offset.2
      ensures paternalCount == old(paternalCount) + offset.3
      ensures barcode == old(barcode)
    {
      maternalCount := maternalCount + offset.0;
      transmittedCount := transmittedCount + offset.1;
      referenceCount := referenceCount + offset.2;
      paternalCount := paternalCount + offset.3;
    }

    /**
     * The label: Transmitted unless maternal evidence strictly outweighs
     * transmitted evidence; ties, 0/0 included, go to Transmitted.
     */
    function HaplotypeClass(): (c: EvidenceType)
      reads this
      ensures c == Transmitted <==> maternalCount <= transmittedCount
      ensures c == Maternal <==> transmittedCount < maternalCount
    {
      if maternalCount <= transmittedCount then Transmitted else Maternal
    }
  }

  class EvidenceTable {
    var data: Table

    constructor ()
      ensures data == map[]
    {
      data := map[];
    }

    /** Appends (evt, count) to the entry list of (barcode, location), creating what is missing. */
    method UpdateSiteData(barcode: string, location: Location, count: int, evt: EvidenceType)
      modifies this
      ensures data == Appended(old(data), barcode, location, count, evt)
    {
      if barcode !in data {
        data := data[barcode := map[]];
      }
      // get_mut on the barcode: the insert above makes the miss impossible
      var subtab: SiteTable;
      match Lookup(data, barcode) {
        case None => assert false;
        case Some(v) => subtab := v;
      }
      if location !in subtab {
        var v: seq<Entry> := [];
        v := v + [(evt, count)];
        subtab := subtab[location := v];
      } else {
        // get_mut on the location: contains_key held, so it cannot miss
        var vecref: seq<Entry>;
        match Lookup(subtab, location) {
          case None => assert false;
          case Some(v) => vecref := v;
        }
        subtab := subtab[location := vecref + [(evt, count)]];
      }
      data := data[barcode := subtab];
    }

    /** Sums one site's entry list into the four per-type counts. */
    static method SiteAdds(entries: seq<Entry>) returns (mats: int, trans: int, refs: int, pat: int)
      ensures mats == EntrySum(entries, Only(Maternal))
      ensures trans == EntrySum(entries, Only(Transmitted))
      ensures refs == EntrySum(entries, Only(Reference))
      ensures pat == EntrySum(entries, Only(Paternal))
    {
      mats, trans, refs, pat := 0, 0, 0, 0;
      var i := 0;
      while i < |entries|
        invariant 0 <= i <= |entries|
        invariant mats == EntrySum(entries[..i], Only(Maternal))
        invariant trans == EntrySum(entries[..i], Only(Transmitted))
        invariant refs == EntrySum(entries[..i], Only(Reference))
        invariant pat == EntrySum(entries[..i], Only(Paternal))
      {
        assert entries[..i + 1][..i] == entries[..i];
        match entries[i] {
          case (Maternal, count) => mats := mats + count;
          case (Transmitted, count) => trans := trans + count;
          case (Reference, count) => refs := refs + count;
          case (Paternal, count) => pat := pat + count;
        }
        i := i + 1;
      }
      assert entries[..i] == entries;
    }

    /** Folds every site of one barcode into a fresh tally, visiting the sites in any order. */
    static method TallyBarcode(sites: SiteTable, barcode: string) returns (tally: BarcodeTally)
      ensures fresh(tally)
      ensures tally.barcode == barcode
      ensures tally.maternalCount == Tally(sites, Only(Maternal))
      ensures tally.transmittedCount == Tally(sites, Only(Transmitted))
      ensures tally.referenceCount == Tally(sites, Only(Reference))
      ensures tally.paternalCount == Tally(sites, Only(Paternal))
    {
      tally := new BarcodeTally(barcode);
      var remaining := sites.Keys;
      ghost var visited: set<Location> := {};
      while remaining != {}
        invariant remaining <= sites.Keys && visited == sites.Keys - remaining
        invariant tally.barcode == barcode
        invariant tally.maternalCount == SiteSum(sites, visited, Only(Maternal))
        invariant tally.transmittedCount == SiteSum(sites, visited, Only(Transmitted))
        invariant tally.referenceCount == SiteSum(sites, visited, Only(Reference))
        invariant tally.paternalCount == SiteSum(sites, visited, Only(Paternal))
        decreases remaining
      {
        var k :| k in remaining;
        var mats, trans, refs, pat := SiteAdds(sites[k]);
        tally.Update((mats, trans, refs, pat));
        SiteSumRemove(sites, visited + {k}, k, Only(Maternal));
        SiteSumRemove(sites, visited + {k}, k, Only(Transmitted));
        SiteSumRemove(sites, visited + {k}, k, Only(Reference));
        SiteSumRemove(sites, visited + {k}, k, Only(Paternal));
        assert visited + {k} - {k} == visited;
        remaining := remaining - {k};
        visited := visited + {k};
      }
      assert visited == sites.Keys;
    }

    /** One (barcode, label) per barcode of the table, in no promised order. */
    method Classify() returns (labels: seq<(string, EvidenceType)>)
      ensures BarcodesOf(labels) == data.Keys
      ensures forall i, j :: 0 <= i < j < |labels| ==> labels[i].0 != labels[j].0
      ensures forall i :: 0 <= i < |labels| ==> labels[i].0 in data && LabelOf(data[labels[i].0], labels[i].1)
    {
      labels := [];
      var remaining := data.Keys;
      while remaining != {}
        invariant remaining <= data.Keys
        invariant BarcodesOf(labels) == data.Keys - remaining
        invariant forall i :: 0 <= i < |labels| ==> labels[i].0 !in remaining
        invariant forall i, j :: 0 <= i < j < |labels| ==> labels[i].0 != labels[j].0
        invariant forall i :: 0 <= i < |labels| ==> labels[i].0 in data && LabelOf(data[labels[i].0], labels[i].1)
        decreases remaining
      {
        var k :| k in remaining;
        var summary := TallyBarcode(data[k], k);
        var haplotype := summary.HaplotypeClass();
        labels := labels + [(k, haplotype)];
        remaining := remaining - {k};
      }
    }
  }

  /** The barcodes named in a list of (barcode, label) lines. */
  function BarcodesOf(labels: seq<(string, EvidenceType)>): set<string> {
    if labels == [] then {} else BarcodesOf(labels[..|labels| - 1]) + {labels[|labels| - 1].0}
  }

  /** `c` is the label HaplotypeClass gives the tally of `sites`. */
  ghost predicate LabelOf(sites: SiteTable, c: EvidenceType) {
    && (c == Transmitted <==> Tally(sites, Only(Maternal)) <= Tally(sites, Only(Transmitted)))
    && (c == Maternal <==> Tally(sites, Only(Transmitted)) < Tally(sites, Only(Maternal)))
  }

  /** A map lookup that may miss, as `HashMap::get_mut`. */
  function Lookup<K, V>(m: map<K, V>, k: K): (r: Option<V>)
    ensures r.Some? <==> k in m
    ensures r.Some? ==> r.value == m[k]
  {
    if k in m then Some(m[k]) else None
  }
}
