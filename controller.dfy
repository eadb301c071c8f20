/**
  The dashboard controller of src/dashboard.py: the `Dashboard` state
  (gas pair, pressure indices, the plotted table, the error crosses and the
  selection) and the callbacks that change it. Widget events are not
  modelled; where a callback's change would fire another callback, the
  model calls it directly.
 */
module Controller {
  import opened Wrappers
  import opened Numeric
  import opened Projector
  import opened ErrorBars

  /**
    `int(v * 2) - 1`: the curve index of a slider value v in bar (index k
    is (k + 1) * 0.5 bar). For v >= 0, Python's truncating int() is floor.
   */
  function SliderIndex(v: real): (i: int)
    requires v >= 0.0
    ensures (i + 1) as real <= 2.0 * v < (i + 2) as real
    ensures i >= -1
  {
    (v * 2.0).Floor - 1
  }

  /** Every position of a slider over 0.5 .. 20 bar in 0.5 bar steps maps to its own index in 0 .. 39. */
  lemma SliderIndexOnGrid(k: int)
    requires 1 <= k <= 40
    ensures SliderIndex(k as real / 2.0) == k - 1
    ensures 0 <= SliderIndex(k as real / 2.0) <= 39
  {
    assert k as real / 2.0 * 2.0 == k as real;
  }

  /** Any value the sliders can take, on the grid or not, gives an index in 0 .. 39. */
  lemma SliderIndexInRange(v: real)
    requires 0.5 <= v <= 20.0
    ensures 0 <= SliderIndex(v) <= 39
  {
  }

  /** The initial indices lp = 0, p1 = 0, p2 = 9 are those of the initial slider values 0.5 and (0.5, 5). */
  lemma InitialIndicesMatchSliders()
    ensures SliderIndex(0.5) == InitialParams.lp
    ensures SliderIndex(0.5) == InitialParams.p1 && SliderIndex(5.0) == InitialParams.p2
  {
  }

  /** GASES[0], GASES[1], lp = 0, p1 = 0, p2 = 9. */
  const InitialParams := Params(0, 1, 0, 0, 9)

  /** How a callback ended: normally, or by raising. */
  datatype Outcome = Done | Raised(error: Failure)

  class Dashboard {
    /** `self._data`: the dataset, read-only. */
    const ds: Dataset
    var g1: GasId
    var g2: GasId
    var lp: nat
    var p1: nat
    var p2: nat
    /** `self.data.data`. */
    var data: Table
    /** `self.errors.data`. */
    var errors: Errors
    /** `self.data.selected.indices`. */
    var selected: seq<nat>

    function CurrentParams(): Params
      reads this
    {
      Params(g1, g2, lp, p1, p2)
    }

    /** The plotted table is always the full projection for the current parameters. */
    ghost predicate Valid()
      reads this
    {
      data == GenData(ds, CurrentParams())
    }

    /** `__init__`: first two gases, initial pressure indices, the full table, no error crosses. */
    constructor (ds: Dataset)
      ensures Valid() && this.ds == ds
      ensures CurrentParams() == InitialParams
      ensures selected == [] && errors == NoErrors()
    {
      this.ds := ds;
      g1, g2 := 0, 1;
      lp, p1, p2 := 0, 0, 9;
      data := GenData(ds, InitialParams);
      errors := NoErrors();
      selected := [];
    }

    /**
      `selection_callback(attr, old, new)`, run once the selection has become
      `indices`: exactly one index builds that row's error crosses, any other
      number of indices clears them.
     */
    method SelectionCallback(indices: seq<nat>) returns (outcome: Outcome)
      requires Valid()
      modifies this`selected, this`errors
      ensures Valid() && selected == indices
      ensures |indices| != 1 ==> outcome == Done && errors == NoErrors()
      ensures |indices| == 1 ==> (outcome == Done <==> indices[0] < |ds|)
      ensures |indices| == 1 && indices[0] < |ds| ==> errors == GenError(ds, data, CurrentParams(), indices[0]).value
      ensures |indices| == 1 && |ds| <= indices[0] ==> errors == old(errors) && outcome == Raised(IndexError)
    {
      selected := indices;
      if |indices| == 1 {
        if indices[0] < |ds| {
          GenErrorOnTable(ds, CurrentParams(), indices[0]);
        }
        var r := GenError(ds, data, CurrentParams(), indices[0]);
        match r
        case Ok(e) =>
          errors := e;
          outcome := Done;
        case Fail(err) =>
          outcome := Raised(err);
      } else {
        errors := NoErrors();
        outcome := Done;
      }
    }

    /**
      `new_gas_callback`: clears a non-empty selection (which runs the
      selection callback and so clears the error crosses) and rebuilds the
      whole table for the new gas pair.
     */
    method NewGasCallback()
      modifies this`data, this`selected, this`errors
      ensures Valid() && selected == []
      ensures errors == if old(selected) == [] then old(errors) else NoErrors()
    {
      if selected != [] {
        // the selection change runs the selection callback with no index
        selected := [];
        errors := NoErrors();
      }
      data := GenData(ds, CurrentParams());
    }

    /** `g1_sel_callback`: the first gas selector changed to g. */
    method Gas1Callback(g: GasId)
      modifies this
      ensures Valid() && g1 == g && g2 == old(g2) && selected == []
      ensures lp == old(lp) && p1 == old(p1) && p2 == old(p2)
      ensures errors == if old(selected) == [] then old(errors) else NoErrors()
    {
      g1 := g;
      NewGasCallback();
    }

    /** `g2_sel_callback`: the second gas selector changed to g. */
    method Gas2Callback(g: GasId)
      modifies this
      ensures Valid() && g2 == g && g1 == old(g1) && selected == []
      ensures lp == old(lp) && p1 == old(p1) && p2 == old(p2)
      ensures errors == if old(selected) == [] then old(errors) else NoErrors()
    {
      g2 := g;
      NewGasCallback();
    }

    /**
      `pressure_callback`: sets lp from the slider and patches the loading
      columns. With a selection it then calls `patch_error_l` with an index,
      which always raises, so the error crosses are left as they were.
     */
    method PressureCallback(v: real) returns (outcome: Outcome)
      requires Valid() && v >= 0.5
      modifies this`lp, this`data
      ensures Valid()
      ensures lp == SliderIndex(v)
      ensures data == old(data).(l := PatchDataL(ds, CurrentParams()))
      ensures outcome == Done <==> selected == []
      ensures selected != [] ==> outcome == Raised(PatchErrorL(ds, data, Some(selected[0])).error)
    {
      lp := SliderIndex(v);
      PatchLIsRebuild(ds, old(CurrentParams()), lp);
      data := data.(l := PatchDataL(ds, CurrentParams()));
      if selected != [] {
        var r := PatchErrorL(ds, data, Some(selected[0]));
        outcome := Raised(r.error);
      } else {
        outcome := Done;
      }
    }

    /**
      `wc_callback`: sets p1 and p2 from the range slider and patches the
      working-capacity columns. With a selection, of any size, it rebuilds
      all error crosses for the first selected index.
     */
    method WcCallback(lo: real, hi: real) returns (outcome: Outcome)
      requires Valid() && lo >= 0.5 && hi >= 0.5
      modifies this`p1, this`p2, this`data, this`errors
      ensures Valid()
      ensures p1 == SliderIndex(lo) && p2 == SliderIndex(hi)
      ensures data == old(data).(w := PatchDataW(ds, CurrentParams()))
      ensures selected == [] ==> outcome == Done && errors == old(errors)
      ensures selected != [] ==> (outcome == Done <==> selected[0] < |ds|)
      ensures selected != [] && selected[0] < |ds| ==>
                errors == GenError(ds, data, CurrentParams(), selected[0]).value
      ensures selected != [] && |ds| <= selected[0] ==> errors == old(errors)
    {
      p1, p2 := SliderIndex(lo), SliderIndex(hi);
      PatchWIsRebuild(ds, old(CurrentParams()), p1, p2);
      data := data.(w := PatchDataW(ds, CurrentParams()));
      outcome := Done;
      if selected != [] {
        if selected[0] < |ds| {
          GenErrorOnTable(ds, CurrentParams(), selected[0]);
        }
        var r := GenError(ds, data, CurrentParams(), selected[0]);
        match r
        case Ok(e) =>
          errors := e;
        case Fail(err) =>
          outcome := Raised(err);
      }
    }
  }
}
