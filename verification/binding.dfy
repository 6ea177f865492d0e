/** Generator binding: the scan of the UIO device list for the DAC node. */
module Binding {
  import opened Settings
  import opened Calibration

  /** The node name that identifies the DAC device. */
  const DacNodeName: string := "rp_dac"

  /** A UIO device descriptor as returned by the device enumeration. */
  datatype Uio = Uio(nodeName: string, nodePath: string)

  /** A generator created on one UIO node, then given the calibration and the
      sample rate (`CGenerator::Create`, `setCalibration`, `setDacHz`). */
  datatype Generator = Generator(node: Uio, dacHz: int, calibration: ChannelCalibration)

  predicate IsDacNode(u: Uio)
  {
    u.nodeName == DacNodeName
  }

  /** The index of the last DAC node in the list, if any. */
  function LastDacIndex(uios: seq<Uio>): (k: Option<nat>)
    ensures k.Some? ==> k.value < |uios| && IsDacNode(uios[k.value])
    ensures k.Some? ==> forall j :: k.value < j < |uios| ==> !IsDacNode(uios[j])
    ensures k.None? ==> forall j :: 0 <= j < |uios| ==> !IsDacNode(uios[j])
    decreases |uios|
  {
    if uios == [] then None
    else if IsDacNode(uios[|uios| - 1]) then Some(|uios| - 1)
    else LastDacIndex(uios[..|uios| - 1])
  }

  /** Every generator the scan creates, one per DAC node, in list order. */
  function DacGenerators(uios: seq<Uio>, hz: int, calib: ChannelCalibration): (gs: seq<Generator>)
    ensures |gs| <= |uios|
    ensures forall g :: g in gs ==> g.node in uios && IsDacNode(g.node) && g.dacHz == hz && g.calibration == calib
    ensures forall j :: 0 <= j < |uios| && IsDacNode(uios[j]) ==> Generator(uios[j], hz, calib) in gs
    decreases |uios|
  {
    if uios == [] then []
    else
      var last := uios[|uios| - 1];
      var front := uios[..|uios| - 1];
      assert forall j :: 0 <= j < |front| ==> front[j] == uios[j];
      DacGenerators(front, hz, calib) + (if IsDacNode(last) then [Generator(last, hz, calib)] else [])
  }

  /** The positions of the DAC nodes in the list: every one of them, in
      increasing order. */
  function DacIndices(uios: seq<Uio>): (idx: seq<nat>)
    ensures forall k :: 0 <= k < |idx| ==> idx[k] < |uios| && IsDacNode(uios[idx[k]])
    ensures forall k, l :: 0 <= k < l < |idx| ==> idx[k] < idx[l]
    ensures forall j :: 0 <= j < |uios| && IsDacNode(uios[j]) ==> j in idx
    decreases |uios|
  {
    if uios == [] then []
    else
      var front := uios[..|uios| - 1];
      assert forall j :: 0 <= j < |front| ==> front[j] == uios[j];
      DacIndices(front) + (if IsDacNode(uios[|uios| - 1]) then [|uios| - 1] else [])
  }

  /** The scan creates exactly one generator per DAC node, in list order: the
      k-th generator is built on the k-th DAC node. */
  lemma {:induction false} DacGeneratorsFollowDacNodes(uios: seq<Uio>, hz: int, calib: ChannelCalibration)
    ensures var gs := DacGenerators(uios, hz, calib);
      var idx := DacIndices(uios);
      |gs| == |idx| && forall k :: 0 <= k < |idx| ==> gs[k] == Generator(uios[idx[k]], hz, calib)
    decreases |uios|
  {
    if uios != [] {
      var front := uios[..|uios| - 1];
      var last := uios[|uios| - 1];
      var gs0, idx0 := DacGenerators(front, hz, calib), DacIndices(front);
      var tailG := if IsDacNode(last) then [Generator(last, hz, calib)] else [];
      var tailI := if IsDacNode(last) then [|uios| - 1] else [];
      DacGeneratorsFollowDacNodes(front, hz, calib);
      assert DacGenerators(uios, hz, calib) == gs0 + tailG;
      assert DacIndices(uios) == idx0 + tailI;
      forall k | 0 <= k < |idx0|
        ensures (gs0 + tailG)[k] == Generator(uios[(idx0 + tailI)[k]], hz, calib)
      {
        assert front[idx0[k]] == uios[idx0[k]];
      }
    }
  }

  /** The generator left bound after the scan: the one built on the last DAC
      node, since each match overwrites the previous one. */
  function BoundGenerator(uios: seq<Uio>, hz: int, calib: ChannelCalibration): (g: Option<Generator>)
    ensures g.Some? <==> exists j :: 0 <= j < |uios| && IsDacNode(uios[j])
    ensures g.Some? ==> IsDacNode(g.value.node) && g.value.node in uios && g.value.dacHz == hz && g.value.calibration == calib
  {
    match LastDacIndex(uios)
    case None => None
    case Some(k) => Some(Generator(uios[k], hz, calib))
  }

  /** The bound generator is the last one created, and none is bound exactly
      when none was created. */
  lemma {:induction false} BoundIsLastCreated(uios: seq<Uio>, hz: int, calib: ChannelCalibration)
    ensures var gs := DacGenerators(uios, hz, calib);
      (gs == [] <==> BoundGenerator(uios, hz, calib).None?) &&
      (gs != [] ==> BoundGenerator(uios, hz, calib) == Some(gs[|gs| - 1]))
    decreases |uios|
  {
    if uios != [] {
      BoundIsLastCreated(uios[..|uios| - 1], hz, calib);
    }
  }

  /** The loop over the UIO list: every DAC node gets a new generator, and the
      last one created is the one left bound. */
  method ScanUioList(uios: seq<Uio>, hz: int, calib: ChannelCalibration) returns (gen: Option<Generator>, created: seq<Generator>)
    ensures gen == BoundGenerator(uios, hz, calib)
    ensures created == DacGenerators(uios, hz, calib)
  {
    gen := None;
    created := [];
    for i := 0 to |uios|
      invariant gen == BoundGenerator(uios[..i], hz, calib)
      invariant created == DacGenerators(uios[..i], hz, calib)
    {
      assert uios[..i + 1][..i] == uios[..i];
      if uios[i].nodeName == DacNodeName {
        gen := Some(Generator(uios[i], hz, calib));
        created := created + [gen.value];
      }
    }
    assert uios[..|uios|] == uios;
  }
}
