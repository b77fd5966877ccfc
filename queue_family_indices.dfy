// src/renderer/queue_family_indices.rs: the scan over a physical device's
// queue families that picks a graphics family and a present family.
// A queue family is what the scan learns about it: whether its flags
// contain GRAPHICS, and the surface-support query's answer, which can fail.

module QueueFamilyIndices {
  import opened Vk

  datatype QueueFamily = QueueFamily(graphics: bool, presentSupport: Result<bool>)

  datatype Indices = Indices(graphicsFamily: Option<nat>, presentFamily: Option<nat>)

  const NO_INDICES: Indices := Indices(None, None)

  const NO_GRAPHICS_FAMILY: string := "No graphics family index found"
  const NO_PRESENT_FAMILY: string := "No present family index found"

  /** `is_complete`. */
  predicate IsComplete(indices: Indices)
  {
    indices.graphicsFamily.Some? && indices.presentFamily.Some?
  }

  /** `get_graphics_family`: the index, or an error exactly when there is none. */
  function GetGraphicsFamily(indices: Indices): (r: Result<nat>)
    ensures r.Err? <==> indices.graphicsFamily.None?
    ensures r.Err? ==> r.msg == NO_GRAPHICS_FAMILY
    ensures r.Ok? ==> indices.graphicsFamily == Some(r.value)
  {
    match indices.graphicsFamily
    case Some(i) => Ok(i)
    case None => Err(NO_GRAPHICS_FAMILY)
  }

  /** `get_present_family`: the index, or an error exactly when there is none. */
  function GetPresentFamily(indices: Indices): (r: Result<nat>)
    ensures r.Err? <==> indices.presentFamily.None?
    ensures r.Err? ==> r.msg == NO_PRESENT_FAMILY
    ensures r.Ok? ==> indices.presentFamily == Some(r.value)
  {
    match indices.presentFamily
    case Some(i) => Ok(i)
    case None => Err(NO_PRESENT_FAMILY)
  }

  /** Complete exactly when both getters succeed. */
  lemma CompleteIffGettersSucceed(indices: Indices)
    ensures IsComplete(indices) <==> GetGraphicsFamily(indices).Ok? && GetPresentFamily(indices).Ok?
  {
  }

  // ---------------------------------------------------------------------
  // The loop, one family at a time

  /** The loop body for family `i`: record it, or fail on the support query's error. */
  function Visit(families: seq<QueueFamily>, i: nat, acc: Indices): Result<Indices>
    requires i < |families|
  {
    var graphics := if families[i].graphics then Some(i) else acc.graphicsFamily;
    match families[i].presentSupport
    case Err(msg) => Err(msg)
    case Ok(supported) =>
      Ok(Indices(graphics, if supported then Some(i) else acc.presentFamily))
  }

  /** The loop from family `i` on, with `acc` the indices so far; it stops once they are complete. */
  function ScanFrom(families: seq<QueueFamily>, i: nat, acc: Indices): Result<Indices>
    requires i <= |families|
    decreases |families| - i
  {
    if i == |families| then Ok(acc)
    else
      match Visit(families, i, acc)
      case Err(msg) => Err(msg)
      case Ok(next) => if IsComplete(next) then Ok(next) else ScanFrom(families, i + 1, next)
  }

  /** What `QueueFamilyIndices::new` returns for a device with these queue families. */
  function Scan(families: seq<QueueFamily>): Result<Indices>
  {
    ScanFrom(families, 0, NO_INDICES)
  }

  /** `QueueFamilyIndices::new`: the enumerate loop with its early `break` and `?`. */
  method New(families: seq<QueueFamily>) returns (r: Result<Indices>)
    ensures r == Scan(families)
  {
    var indices := NO_INDICES;
    var i := 0;
    while i < |families|
      invariant 0 <= i <= |families|
      invariant Scan(families) == ScanFrom(families, i, indices)
    {
      if families[i].graphics {
        indices := indices.(graphicsFamily := Some(i));
      }
      var presentSupport := families[i].presentSupport;
      if presentSupport.Err? {
        return Err(presentSupport.msg);
      }
      if presentSupport.value {
        indices := indices.(presentFamily := Some(i));
      }
      if IsComplete(indices) {
        return Ok(indices);
      }
      i := i + 1;
    }
    r := Ok(indices);
  }

  // ---------------------------------------------------------------------
  // An independent description of the scan's outcome

  predicate Presents(f: QueueFamily)
  {
    f.presentSupport == Ok(true)
  }

  /** The last graphics-capable family among the first `n`. */
  function LastGraphics(families: seq<QueueFamily>, n: nat): (r: Option<nat>)
    requires n <= |families|
    ensures r.Some? ==> r.value < n && families[r.value].graphics
    ensures r.Some? ==> forall j :: r.value < j < n ==> !families[j].graphics
    ensures r.None? ==> forall j :: 0 <= j < n ==> !families[j].graphics
  {
    if n == 0 then None
    else if families[n - 1].graphics then Some(n - 1)
    else LastGraphics(families, n - 1)
  }

  /** The last family among the first `n` that reported present support. */
  function LastPresent(families: seq<QueueFamily>, n: nat): (r: Option<nat>)
    requires n <= |families|
    ensures r.Some? ==> r.value < n && Presents(families[r.value])
    ensures r.Some? ==> forall j :: r.value < j < n ==> !Presents(families[j])
    ensures r.None? ==> forall j :: 0 <= j < n ==> !Presents(families[j])
  {
    if n == 0 then None
    else if Presents(families[n - 1]) then Some(n - 1)
    else LastPresent(families, n - 1)
  }

  /** Whether the first `n` families hold both a graphics and a present family. */
  predicate CompleteAfter(families: seq<QueueFamily>, n: nat)
    requires n <= |families|
  {
    LastGraphics(families, n).Some? && LastPresent(families, n).Some?
  }

  /** How many families the scan visits from `i` on, with no error: up to the first complete prefix. */
  function VisitedFrom(families: seq<QueueFamily>, i: nat): (n: nat)
    requires i <= |families|
    ensures i <= n <= |families|
    decreases |families| - i
  {
    if i == |families| then i
    else if CompleteAfter(families, i + 1) then i + 1
    else VisitedFrom(families, i + 1)
  }

  /** The number of families visited: the shortest complete prefix, or all of them. */
  function Visited(families: seq<QueueFamily>): (n: nat)
    ensures n <= |families|
  {
    VisitedFrom(families, 0)
  }

  predicate NoQueryErrorBefore(families: seq<QueueFamily>, n: nat)
    requires n <= |families|
  {
    forall j :: 0 <= j < n ==> families[j].presentSupport.Ok?
  }

  lemma {:induction false} ScanFromIsLastOfVisited(families: seq<QueueFamily>, i: nat)
    requires i <= |families|
    requires NoQueryErrorBefore(families, VisitedFrom(families, i))
    ensures ScanFrom(families, i, Indices(LastGraphics(families, i), LastPresent(families, i)))
            == Ok(Indices(LastGraphics(families, VisitedFrom(families, i)),
                          LastPresent(families, VisitedFrom(families, i))))
    decreases |families| - i
  {
    if i < |families| {
      var acc := Indices(LastGraphics(families, i), LastPresent(families, i));
      assert Visit(families, i, acc)
             == Ok(Indices(LastGraphics(families, i + 1), LastPresent(families, i + 1)));
      if !CompleteAfter(families, i + 1) {
        ScanFromIsLastOfVisited(families, i + 1);
      }
    }
  }

  /**
   * Without a failing support query among the visited families, the scan
   * yields the last graphics family and the last present family among the
   * families up to the first point where both exist (or among all).
   */
  lemma ScanIsLastOfVisited(families: seq<QueueFamily>)
    requires NoQueryErrorBefore(families, Visited(families))
    ensures Scan(families)
            == Ok(Indices(LastGraphics(families, Visited(families)), LastPresent(families, Visited(families))))
  {
    ScanFromIsLastOfVisited(families, 0);
  }

  /** The scan stops at the first family that completes the pair. */
  lemma {:induction false} VisitedIsShortestComplete(families: seq<QueueFamily>, i: nat, m: nat)
    requires i < m <= |families|
    requires CompleteAfter(families, m)
    requires forall n :: i < n < m ==> !CompleteAfter(families, n)
    ensures VisitedFrom(families, i) == m
    decreases |families| - i
  {
    if !CompleteAfter(families, i + 1) {
      VisitedIsShortestComplete(families, i + 1, m);
    }
  }

  lemma {:induction false} ScanFromReportsFirstError(families: seq<QueueFamily>, i: nat, k: nat)
    requires i <= |families|
    requires i <= k < VisitedFrom(families, i)
    requires families[k].presentSupport.Err?
    requires forall j :: 0 <= j < k ==> families[j].presentSupport.Ok?
    ensures ScanFrom(families, i, Indices(LastGraphics(families, i), LastPresent(families, i)))
            == Err(families[k].presentSupport.msg)
    decreases |families| - i
  {
    if i < k {
      var acc := Indices(LastGraphics(families, i), LastPresent(families, i));
      assert Visit(families, i, acc)
             == Ok(Indices(LastGraphics(families, i + 1), LastPresent(families, i + 1)));
      ScanFromReportsFirstError(families, i + 1, k);
    }
  }

  /** A failing support query among the visited families aborts the scan with its error. */
  lemma ScanReportsFirstError(families: seq<QueueFamily>, k: nat)
    requires k < Visited(families)
    requires families[k].presentSupport.Err?
    requires forall j :: 0 <= j < k ==> families[j].presentSupport.Ok?
    ensures Scan(families) == Err(families[k].presentSupport.msg)
  {
    ScanFromReportsFirstError(families, 0, k);
  }

  /** With no graphics-capable family the whole list is visited and no graphics family is found. */
  lemma NoGraphicsFamilyScansAll(families: seq<QueueFamily>)
    requires forall j :: 0 <= j < |families| ==> !families[j].graphics
    requires NoQueryErrorBefore(families, |families|)
    ensures Visited(families) == |families|
    ensures Scan(families).Ok? && Scan(families).value.graphicsFamily.None?
  {
    NoGraphicsVisitsAll(families, 0);
    ScanIsLastOfVisited(families);
  }

  lemma {:induction false} NoGraphicsVisitsAll(families: seq<QueueFamily>, i: nat)
    requires i <= |families|
    requires forall j :: 0 <= j < |families| ==> !families[j].graphics
    ensures VisitedFrom(families, i) == |families|
    decreases |families| - i
  {
    if i < |families| {
      NoGraphicsVisitsAll(families, i + 1);
    }
  }

  /** Every index the scan returns names one of the device's families. */
  lemma ScanIndicesInRange(families: seq<QueueFamily>)
    requires Scan(families).Ok?
    ensures Scan(families).value.graphicsFamily.Some? ==> Scan(families).value.graphicsFamily.value < |families|
    ensures Scan(families).value.presentFamily.Some? ==> Scan(families).value.presentFamily.value < |families|
  {
    ScanFromInRange(families, 0, NO_INDICES);
  }

  predicate InRange(acc: Indices, n: nat)
  {
    && (acc.graphicsFamily.Some? ==> acc.graphicsFamily.value < n)
    && (acc.presentFamily.Some? ==> acc.presentFamily.value < n)
  }

  lemma {:induction false} ScanFromInRange(families: seq<QueueFamily>, i: nat, acc: Indices)
    requires i <= |families| && InRange(acc, |families|)
    requires ScanFrom(families, i, acc).Ok?
    ensures InRange(ScanFrom(families, i, acc).value, |families|)
    decreases |families| - i
  {
    if i < |families| {
      var next := Visit(families, i, acc);
      if next.Ok? && !IsComplete(next.value) {
        ScanFromInRange(families, i + 1, next.value);
      }
    }
  }
}
