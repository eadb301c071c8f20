/**
  The metric projector of src/dashboard.py: `gen_data`, which builds every
  plotted column for the selected gas pair and pressure indices, and the
  partial updates `patch_data_l` and `patch_data_w`, which recompute only
  the loading or only the working-capacity columns of the whole table.
 */
module Projector {
  import opened Numeric
  import opened Sampler

  /** GASES: the gas vocabulary of the two gas selectors. */
  const Gases: seq<string> := ["carbon dioxide", "nitrogen", "methane",
    "ethane", "ethene", "acetylene", "propane", "propene",
    "butane", "isobutane"]

  /** A gas, as its position in Gases. */
  type GasId = g: nat | g < |Gases|

  /**
    The fields of one (material, gas) cell group of the dataset that the
    projector reads: Henry's constant, its count and its error, and the
    pressure-indexed loading curve with its count and error curves.
   */
  datatype GasRecord = GasRecord(mKh: Num, lKh: Num, eKh: Num,
                                 mL: seq<Num>, lL: seq<Num>, eL: seq<Num>)

  /** One dataset row: the material's name (the index label) and one record per gas of Gases. */
  datatype MaterialRow = MaterialRow(name: string, records: seq<GasRecord>)

  const NoRecord := GasRecord(Missing, Missing, Missing, [], [], [])

  type Material = m: MaterialRow | |m.records| == |Gases|
    witness MaterialRow("", seq(10, _ => NoRecord))

  /** The dataset table, one row per material, in index order. */
  type Dataset = seq<Material>

  /** The parameters the projector depends on: the gas pair and the pressure indices. */
  datatype Params = Params(g1: GasId, g2: GasId, lp: nat, p1: nat, p2: nat)

  /**
    The five columns of one metric family: x (gas 1), y (gas 2), their
    significance counts nx and ny, and the combined significance n. For
    family K they are x_K, y_K, n_xK, n_yK, n_K, and likewise for L and W.
   */
  datatype Family = Family(x: seq<Num>, y: seq<Num>, nx: seq<Num>, ny: seq<Num>, n: seq<Num>)

  /** The column data source of the scatter plots. */
  datatype Table = Table(labels: seq<string>, k: Family, l: Family, w: Family)

  ghost predicate FamilyShaped(f: Family, rows: nat) {
    |f.x| == rows && |f.y| == rows && |f.nx| == rows && |f.ny| == rows && |f.n| == rows
  }

  /** Every column of the table has one entry per row. */
  ghost predicate Shaped(t: Table, rows: nat) {
    |t.labels| == rows && FamilyShaped(t.k, rows) && FamilyShaped(t.l, rows) && FamilyShaped(t.w, rows)
  }

  /** The combined significance is the NaN-propagating sum of the gas-1 and gas-2 ones. */
  ghost predicate Combined(f: Family) {
    |f.n| == |f.nx| == |f.ny| && forall i :: 0 <= i < |f.n| ==> f.n[i] == Add(f.nx[i], f.ny[i])
  }

  /** `self._data[g, field].apply(get)`: one value per row from gas g's record. */
  function Column(ds: Dataset, g: GasId, get: GasRecord -> Num): seq<Num> {
    seq(|ds|, i requires 0 <= i < |ds| => get(ds[i].records[g]))
  }

  /** numpy's elementwise `a + b` of two columns. */
  function Plus(a: seq<Num>, b: seq<Num>): seq<Num>
    requires |a| == |b|
  {
    seq(|a|, i requires 0 <= i < |a| => Add(a[i], b[i]))
  }

  /** `gen_data`: the whole table for the parameters p. */
  function GenData(ds: Dataset, p: Params): (t: Table)
    ensures Shaped(t, |ds|)
    ensures forall i :: 0 <= i < |ds| ==> t.labels[i] == ds[i].name
    ensures Combined(t.k) && Combined(t.l) && Combined(t.w)
  {
    Table(
      seq(|ds|, i requires 0 <= i < |ds| => ds[i].name),
      Family(Column(ds, p.g1, (r: GasRecord) => r.mKh),
             Column(ds, p.g2, (r: GasRecord) => r.mKh),
             Column(ds, p.g1, (r: GasRecord) => r.lKh),
             Column(ds, p.g2, (r: GasRecord) => r.lKh),
             Plus(Column(ds, p.g1, (r: GasRecord) => r.lKh), Column(ds, p.g2, (r: GasRecord) => r.lKh))),
      Family(Column(ds, p.g1, (r: GasRecord) => Sample(r.mL, p.lp)),
             Column(ds, p.g2, (r: GasRecord) => Sample(r.mL, p.lp)),
             Column(ds, p.g1, (r: GasRecord) => Sample(r.lL, p.lp)),
             Column(ds, p.g2, (r: GasRecord) => Sample(r.lL, p.lp)),
             Plus(Column(ds, p.g1, (r: GasRecord) => Sample(r.lL, p.lp)), Column(ds, p.g2, (r: GasRecord) => Sample(r.lL, p.lp)))),
      Family(Column(ds, p.g1, (r: GasRecord) => WorkingCapacity(r.mL, p.p1, p.p2)),
             Column(ds, p.g2, (r: GasRecord) => WorkingCapacity(r.mL, p.p1, p.p2)),
             Column(ds, p.g1, (r: GasRecord) => WcSignificance(r.lL, p.p1, p.p2)),
             Column(ds, p.g2, (r: GasRecord) => WcSignificance(r.lL, p.p1, p.p2)),
             Plus(Column(ds, p.g1, (r: GasRecord) => WcSignificance(r.lL, p.p1, p.p2)),
                  Column(ds, p.g2, (r: GasRecord) => WcSignificance(r.lL, p.p1, p.p2)))))
  }

  /**
    What each plotted value of row i is: Henry's constant read directly; the
    loading at lp, or Missing past the end of the curve; the working
    capacity L[p2] - L[p1], or Missing when either index is past the end;
    and the working-capacity significance as the sum of the two counts.
   */
  lemma GenDataRow(ds: Dataset, p: Params, i: nat)
    requires i < |ds|
    ensures var t, a, b := GenData(ds, p), ds[i].records[p.g1], ds[i].records[p.g2];
      && t.k.x[i] == a.mKh && t.k.y[i] == b.mKh
      && t.k.nx[i] == a.lKh && t.k.ny[i] == b.lKh
      && t.l.x[i] == (if p.lp < |a.mL| then a.mL[p.lp] else Missing)
      && t.l.y[i] == (if p.lp < |b.mL| then b.mL[p.lp] else Missing)
      && t.l.nx[i] == (if p.lp < |a.lL| then a.lL[p.lp] else Missing)
      && t.l.ny[i] == (if p.lp < |b.lL| then b.lL[p.lp] else Missing)
      && t.w.x[i] == (if p.p1 < |a.mL| && p.p2 < |a.mL| then Sub(a.mL[p.p2], a.mL[p.p1]) else Missing)
      && t.w.y[i] == (if p.p1 < |b.mL| && p.p2 < |b.mL| then Sub(b.mL[p.p2], b.mL[p.p1]) else Missing)
      && t.w.nx[i] == (if p.p1 < |a.lL| && p.p2 < |a.lL| then Add(a.lL[p.p1], a.lL[p.p2]) else Missing)
      && t.w.ny[i] == (if p.p1 < |b.lL| && p.p2 < |b.lL| then Add(b.lL[p.p1], b.lL[p.p2]) else Missing)
  {
  }

  /** `patch_data_l`: new contents for the five loading columns, over all rows. */
  function PatchDataL(ds: Dataset, p: Params): (f: Family)
    ensures f == GenData(ds, p).l
  {
    Family(Column(ds, p.g1, (r: GasRecord) => Sample(r.mL, p.lp)),
           Column(ds, p.g2, (r: GasRecord) => Sample(r.mL, p.lp)),
           Column(ds, p.g1, (r: GasRecord) => Sample(r.lL, p.lp)),
           Column(ds, p.g2, (r: GasRecord) => Sample(r.lL, p.lp)),
           Plus(Column(ds, p.g1, (r: GasRecord) => Sample(r.lL, p.lp)), Column(ds, p.g2, (r: GasRecord) => Sample(r.lL, p.lp))))
  }

  /** `patch_data_w`: new contents for the five working-capacity columns, over all rows. */
  function PatchDataW(ds: Dataset, p: Params): (f: Family)
    ensures f == GenData(ds, p).w
  {
    Family(Column(ds, p.g1, (r: GasRecord) => WorkingCapacity(r.mL, p.p1, p.p2)),
           Column(ds, p.g2, (r: GasRecord) => WorkingCapacity(r.mL, p.p1, p.p2)),
           Column(ds, p.g1, (r: GasRecord) => WcSignificance(r.lL, p.p1, p.p2)),
           Column(ds, p.g2, (r: GasRecord) => WcSignificance(r.lL, p.p1, p.p2)),
           Plus(Column(ds, p.g1, (r: GasRecord) => WcSignificance(r.lL, p.p1, p.p2)),
                Column(ds, p.g2, (r: GasRecord) => WcSignificance(r.lL, p.p1, p.p2))))
  }

  /**
    Partial-update equivalence for the pressure slider: patching the loading
    columns of the table built for p with `patch_data_l` at the new pressure
    index gives exactly the table a full rebuild would, so the labels, the
    row count and the K and W columns are left as they were.
   */
  lemma PatchLIsRebuild(ds: Dataset, p: Params, lp: nat)
    ensures GenData(ds, p).(l := PatchDataL(ds, p.(lp := lp))) == GenData(ds, p.(lp := lp))
  {
  }

  /** The same for the working-capacity slider and `patch_data_w`. */
  lemma PatchWIsRebuild(ds: Dataset, p: Params, p1: nat, p2: nat)
    ensures GenData(ds, p).(w := PatchDataW(ds, p.(p1 := p1, p2 := p2)))
         == GenData(ds, p.(p1 := p1, p2 := p2))
  {
  }
}
