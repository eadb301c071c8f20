/**
  The error-bar builder of src/dashboard.py: `gen_error`, which draws an
  error cross through the selected point of each scatter plot,
  `patch_error_l` and `patch_error_wc`. A cross is two segments held in
  four columns (x0, y0) -> (x1, y1): segment 0 is horizontal, segment 1
  vertical, both through the plotted centre.
 */
module ErrorBars {
  import opened Wrappers
  import opened Numeric
  import opened Sampler
  import opened Projector

  /** The columns F_x0, F_y0, F_x1, F_y1 of one family F in K, L, W. */
  datatype Cross = Cross(x0: seq<Num>, y0: seq<Num>, x1: seq<Num>, y1: seq<Num>)

  /** The error column data source; `labels` is a column only when a row is shown. */
  datatype Errors = Errors(labels: Option<seq<string>>, k: Cross, l: Cross, w: Cross)

  /** The exceptions the builders can raise. */
  datatype Failure = IndexError | KeyError | UnboundLocalError

  datatype Result<+T> = Ok(value: T) | Fail(error: Failure)

  const EmptyCross := Cross([], [], [], [])

  /** `gen_error()` with no index: the twelve segment columns, all empty, and no labels. */
  function NoErrors(): (e: Errors)
    ensures e.labels.None?
    ensures forall c :: c in {e.k, e.l, e.w} ==> c.x0 == c.y0 == c.x1 == c.y1 == []
  {
    Errors(None, EmptyCross, EmptyCross, EmptyCross)
  }

  /** Midpoint of a segment's two coordinates, Missing when either is. */
  function Mid(a: Num, b: Num): Num {
    if a.Val? && b.Val? then Val((a.v + b.v) / 2.0) else Missing
  }

  /**
    The cross centred at (x, y) with half-widths ex and ey: segment 0 runs
    from (x - ex, y) to (x + ex, y) and segment 1 from (x, y - ey) to
    (x, y + ey). Both pass through the centre; a missing error makes its
    segment's ends missing, so it is not drawn.
   */
  function CrossAt(x: Num, y: Num, ex: Num, ey: Num): (c: Cross)
    ensures |c.x0| == |c.y0| == |c.x1| == |c.y1| == 2
    ensures c.y0[0] == c.y1[0] == y && c.x0[1] == c.x1[1] == x
    ensures x.Val? && ex.Val? ==> Mid(c.x0[0], c.x1[0]) == x && c.x1[0].v - c.x0[0].v == 2.0 * ex.v
    ensures y.Val? && ey.Val? ==> Mid(c.y0[1], c.y1[1]) == y && c.y1[1].v - c.y0[1].v == 2.0 * ey.v
    ensures ex.Missing? ==> c.x0[0].Missing? && c.x1[0].Missing?
    ensures ey.Missing? ==> c.y0[1].Missing? && c.y1[1].Missing?
    ensures x.Missing? ==> c.x0[0].Missing? && c.x1[0].Missing?
    ensures y.Missing? ==> c.y0[1].Missing? && c.y1[1].Missing?
  {
    Cross([Sub(x, ex), x], [y, Sub(y, ey)], [Add(x, ex), x], [y, Add(y, ey)])
  }

  /** The cross drawn for a family whose centre has a missing coordinate: every entry 0. */
  function ZeroCross(): (c: Cross)
    ensures c.x0 == c.y0 == c.x1 == c.y1 == [Zero, Zero]
  {
    CrossAt(Zero, Zero, Zero, Zero)
  }

  /** `self._data.loc[mat]`: the first row whose index label is mat. */
  function Loc(ds: Dataset, mat: string): (r: Option<nat>)
    ensures r.Some? ==> r.value < |ds| && ds[r.value].name == mat
    ensures r.Some? ==> forall j :: 0 <= j < r.value ==> ds[j].name != mat
    ensures r.None? <==> forall j :: 0 <= j < |ds| ==> ds[j].name != mat
  {
    if |ds| == 0 then None
    else if ds[0].name == mat then Some(0)
    else match Loc(ds[1..], mat)
      case None => None
      case Some(j) => Some(j + 1)
  }

  /** A label that occurs once is found at its own row. */
  lemma LocOfUniqueName(ds: Dataset, i: nat)
    requires i < |ds|
    requires forall j :: 0 <= j < |ds| && j != i ==> ds[j].name != ds[i].name
    ensures Loc(ds, ds[i].name) == Some(i)
  {
  }

  /** The loading error of one gas at the selected pressure: `get_err(eL, lp)`. */
  function LoadingError(r: GasRecord, p: Params): Num {
    Sample(r.eL, p.lp)
  }

  /** The working-capacity error of one gas: `get_err(eL, p1) + get_err(eL, p2)`. */
  function WcError(r: GasRecord, p: Params): Num {
    Add(Sample(r.eL, p.p1), Sample(r.eL, p.p2))
  }

  /**
    `gen_error(index)`: reads the plotted centres of row `index` from the
    table t (the current `self.data.data`) and the errors from the dataset
    row of the same label. K uses `eKh` as it is; for L and W a missing
    centre coordinate collapses centre and errors to 0.
   */
  function GenError(ds: Dataset, t: Table, p: Params, index: nat): (r: Result<Errors>)
    requires Shaped(t, |t.labels|)
    ensures index >= |t.labels| ==> r == Fail(IndexError)
    ensures index < |t.labels| ==> (r == Fail(KeyError) <==> Loc(ds, t.labels[index]).None?)
    ensures index < |t.labels| && Loc(ds, t.labels[index]).Some? ==> r.Ok?
    ensures r.Ok? ==>
      var mat := t.labels[index];
      var a, b := ds[Loc(ds, mat).value].records[p.g1], ds[Loc(ds, mat).value].records[p.g2];
      && r.value.labels == Some([mat, mat])
      && r.value.k == CrossAt(t.k.x[index], t.k.y[index], a.eKh, b.eKh)
      && (t.l.x[index].Missing? || t.l.y[index].Missing? ==> r.value.l == ZeroCross())
      && (t.l.x[index].Val? && t.l.y[index].Val? ==>
            r.value.l == CrossAt(t.l.x[index], t.l.y[index], LoadingError(a, p), LoadingError(b, p)))
      && (t.w.x[index].Missing? || t.w.y[index].Missing? ==> r.value.w == ZeroCross())
      && (t.w.x[index].Val? && t.w.y[index].Val? ==>
            r.value.w == CrossAt(t.w.x[index], t.w.y[index], WcError(a, p), WcError(b, p)))
  {
    if |t.labels| <= index then Fail(IndexError)
    else
      var mat := t.labels[index];
      match Loc(ds, mat)
      case None => Fail(KeyError)
      case Some(row) =>
        var a, b := ds[row].records[p.g1], ds[row].records[p.g2];
        var lx, ly := t.l.x[index], t.l.y[index];
        var wx, wy := t.w.x[index], t.w.y[index];
        var l := if lx.Missing? || ly.Missing? then ZeroCross()
                 else CrossAt(lx, ly, LoadingError(a, p), LoadingError(b, p));
        var w := if wx.Missing? || wy.Missing? then ZeroCross()
                 else CrossAt(wx, wy, WcError(a, p), WcError(b, p));
        Ok(Errors(Some([mat, mat]), CrossAt(t.k.x[index], t.k.y[index], a.eKh, b.eKh), l, w))
  }

  /**
    On the table `gen_data` built for p, every row in range has its crosses,
    drawn through the plotted point of that row with the errors of that row;
    a row's label is found at the row itself when labels are unique.
   */
  lemma GenErrorOnTable(ds: Dataset, p: Params, index: nat)
    requires index < |ds|
    ensures GenError(ds, GenData(ds, p), p, index).Ok?
    ensures (forall j :: 0 <= j < |ds| && j != index ==> ds[j].name != ds[index].name) ==>
      var t, e := GenData(ds, p), GenError(ds, GenData(ds, p), p, index).value;
      var a, b := ds[index].records[p.g1], ds[index].records[p.g2];
      && e.k == CrossAt(a.mKh, b.mKh, a.eKh, b.eKh)
      && (t.l.x[index].Val? && t.l.y[index].Val? ==>
            e.l == CrossAt(Sample(a.mL, p.lp), Sample(b.mL, p.lp), LoadingError(a, p), LoadingError(b, p)))
      && (t.w.x[index].Val? && t.w.y[index].Val? ==>
            e.w == CrossAt(WorkingCapacity(a.mL, p.p1, p.p2), WorkingCapacity(b.mL, p.p1, p.p2),
                           WcError(a, p), WcError(b, p)))
  {
    var t := GenData(ds, p);
    assert t.labels[index] == ds[index].name;
    if forall j :: 0 <= j < |ds| && j != index ==> ds[j].name != ds[index].name {
      LocOfUniqueName(ds, index);
    }
  }

  /**
    `patch_error_l(index)`: with no index, the patch that empties the four
    loading segment columns. With an index the source reads `L_x` before
    assigning it (src/dashboard.py:398), so the call raises: UnboundLocalError,
    unless reading the label or the row raised first.
   */
  function PatchErrorL(ds: Dataset, t: Table, index: Option<nat>): (r: Result<Cross>)
    ensures r.Ok? <==> index.None?
    ensures index.None? ==> r.value == EmptyCross
  {
    match index
    case None => Ok(EmptyCross)
    case Some(i) =>
      if |t.labels| <= i then Fail(IndexError)
      else if Loc(ds, t.labels[i]).None? then Fail(KeyError)
      else Fail(UnboundLocalError)
  }

  /**
    `patch_error_wc(index)`: the working-capacity part of `gen_error`. With
    no index it empties the four W columns; it reads the dataset row only
    when the centre is defined.
   */
  function PatchErrorWc(ds: Dataset, t: Table, p: Params, index: Option<nat>): (r: Result<Cross>)
    requires Shaped(t, |t.labels|)
    ensures index.None? ==> r == Ok(EmptyCross)
    ensures index.Some? && GenError(ds, t, p, index.value).Ok? ==>
              r == Ok(GenError(ds, t, p, index.value).value.w)
  {
    match index
    case None => Ok(EmptyCross)
    case Some(i) =>
      if |t.labels| <= i then Fail(IndexError)
      else
        var mat := t.labels[i];
        var wx, wy := t.w.x[i], t.w.y[i];
        if wx.Missing? || wy.Missing? then Ok(ZeroCross())
        else match Loc(ds, mat)
          case None => Fail(KeyError)
          case Some(row) =>
            var a, b := ds[row].records[p.g1], ds[row].records[p.g2];
            Ok(CrossAt(wx, wy, WcError(a, p), WcError(b, p)))
  }
}
