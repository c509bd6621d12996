/** `analyzeStorageConfig` of src/storage.js: PersistentVolumes grouped by phase and by
    storage class, their capacities summed into used and available, PersistentVolumeClaims
    grouped by phase and StorageClasses by provisioner. */
module Storage {
  import opened Js
  import opened Quantity

  /** The fields of a PersistentVolume the analysis reads; `capacity` is
      `spec.capacity.storage`. */
  datatype PersistentVolume = PersistentVolume(
    name: string, phase: Option<string>, storageClassName: Option<string>, capacity: Option<string>)

  datatype PersistentVolumeClaim = PersistentVolumeClaim(name: string, phase: Option<string>)

  datatype StorageClass = StorageClass(name: string, provisioner: Option<string>)

  datatype Capacity = Capacity(total: nat, used: nat, available: nat)

  datatype StorageAnalysis = StorageAnalysis(
    totalPersistentVolumes: nat,
    totalPersistentVolumeClaims: nat,
    totalStorageClasses: nat,
    pvByStatus: Dict<seq<string>>,
    pvcByStatus: Dict<seq<string>>,
    pvByStorageClass: Dict<seq<string>>,
    storageCapacity: Capacity,
    storageClassesByProvisioner: Dict<seq<string>>)

  function PvName(pv: PersistentVolume): string { pv.name }
  function PvStatus(pv: PersistentVolume): string { OrDefault(pv.phase, "Unknown") }
  function PvClass(pv: PersistentVolume): string { OrDefault(pv.storageClassName, "default") }
  function PvcName(pvc: PersistentVolumeClaim): string { pvc.name }
  function PvcStatus(pvc: PersistentVolumeClaim): string { OrDefault(pvc.phase, "Unknown") }
  function ClassName(sc: StorageClass): string { sc.name }
  function Provisioner(sc: StorageClass): string { OrDefault(sc.provisioner, "Unknown") }

  /** The parsed size of a PV; a PV without a (non-empty) `capacity.storage` adds nothing. */
  function PvCapacity(pv: PersistentVolume): nat {
    if pv.capacity.Some? && pv.capacity.value != "" then ParseStorageCapacity(pv.capacity.value) else 0
  }

  /** What a PV adds to `used`: its capacity when its status is `Bound`. */
  function BoundCapacity(pv: PersistentVolume): nat {
    if PvStatus(pv) == "Bound" then PvCapacity(pv) else 0
  }

  /** What a PV adds to `available`: its capacity when its status is anything else. */
  function FreeCapacity(pv: PersistentVolume): nat {
    if PvStatus(pv) == "Bound" then 0 else PvCapacity(pv)
  }

  function CapacityOf(pvs: seq<PersistentVolume>): Capacity {
    Capacity(SumNat(pvs, PvCapacity), SumNat(pvs, BoundCapacity), SumNat(pvs, FreeCapacity))
  }

  function AnalysisOf(pvs: seq<PersistentVolume>, pvcs: seq<PersistentVolumeClaim>, scs: seq<StorageClass>): StorageAnalysis {
    StorageAnalysis(
      |pvs|, |pvcs|, |scs|,
      GroupBy([], pvs, PvStatus, PvName),
      GroupBy([], pvcs, PvcStatus, PvcName),
      GroupBy([], pvs, PvClass, PvName),
      CapacityOf(pvs),
      GroupBy([], scs, Provisioner, ClassName))
  }

  /** Every PV's capacity goes either to `used` or to `available`, so the total is their
      sum and bounds each. */
  lemma {:induction false} CapacitySplit(pvs: seq<PersistentVolume>)
    ensures CapacityOf(pvs).total == CapacityOf(pvs).used + CapacityOf(pvs).available
    decreases |pvs|
  {
    if |pvs| > 0 { CapacitySplit(pvs[..|pvs| - 1]); }
  }

  /** When no PV is Bound nothing is used and everything is available. */
  lemma {:induction false} NothingBoundNothingUsed(pvs: seq<PersistentVolume>)
    requires forall i :: 0 <= i < |pvs| ==> PvStatus(pvs[i]) != "Bound"
    ensures CapacityOf(pvs).used == 0
    ensures CapacityOf(pvs).available == CapacityOf(pvs).total
    decreases |pvs|
  {
    if |pvs| > 0 { NothingBoundNothingUsed(pvs[..|pvs| - 1]); }
  }

  /** A PV whose capacity reads `<digits><K…Ti>` adds the digits times 1024^k; any other
      capacity text, or none, adds nothing. */
  lemma PvCapacityLaws(pv: PersistentVolume, d: string, u: string)
    ensures pv.capacity == Some(d + u) && IsQuantity(d + u, d, u, 4) ==>
      PvCapacity(pv) == DigitsValue(d) * Pow1024(UnitPower(u).value)
    ensures PvCapacity(pv) != 0 ==> pv.capacity.Some? && exists d', u' :: IsQuantity(pv.capacity.value, d', u', 4)
  {
    if pv.capacity.Some? {
      ParseStorageCapacityLaws(pv.capacity.value, d, u);
    }
  }

  /** The totals are the input lengths; every PV name lands once in the list of its
      status (missing → `Unknown`) and once in the list of its storage class (missing →
      `default`), in input order; PVC and StorageClass names likewise under their phase
      and provisioner; no key appears twice; total capacity is used plus available. */
  lemma AnalysisLaws(pvs: seq<PersistentVolume>, pvcs: seq<PersistentVolumeClaim>, scs: seq<StorageClass>, k: string)
    ensures AnalysisOf(pvs, pvcs, scs).totalPersistentVolumes == |pvs|
    ensures AnalysisOf(pvs, pvcs, scs).totalPersistentVolumeClaims == |pvcs|
    ensures AnalysisOf(pvs, pvcs, scs).totalStorageClasses == |scs|
    ensures TotalListed(AnalysisOf(pvs, pvcs, scs).pvByStatus) == |pvs|
    ensures ListAt(AnalysisOf(pvs, pvcs, scs).pvByStatus, k) == Select(pvs, PvStatus, PvName, k)
    ensures DistinctKeys(AnalysisOf(pvs, pvcs, scs).pvByStatus)
    ensures TotalListed(AnalysisOf(pvs, pvcs, scs).pvByStorageClass) == |pvs|
    ensures ListAt(AnalysisOf(pvs, pvcs, scs).pvByStorageClass, k) == Select(pvs, PvClass, PvName, k)
    ensures DistinctKeys(AnalysisOf(pvs, pvcs, scs).pvByStorageClass)
    ensures TotalListed(AnalysisOf(pvs, pvcs, scs).pvcByStatus) == |pvcs|
    ensures ListAt(AnalysisOf(pvs, pvcs, scs).pvcByStatus, k) == Select(pvcs, PvcStatus, PvcName, k)
    ensures TotalListed(AnalysisOf(pvs, pvcs, scs).storageClassesByProvisioner) == |scs|
    ensures ListAt(AnalysisOf(pvs, pvcs, scs).storageClassesByProvisioner, k) == Select(scs, Provisioner, ClassName, k)
    ensures AnalysisOf(pvs, pvcs, scs).storageCapacity.total ==
      AnalysisOf(pvs, pvcs, scs).storageCapacity.used + AnalysisOf(pvs, pvcs, scs).storageCapacity.available
  {
    GroupByLaws([], pvs, PvStatus, PvName, k);
    GroupByLaws([], pvs, PvClass, PvName, k);
    GroupByLaws([], pvcs, PvcStatus, PvcName, k);
    GroupByLaws([], scs, Provisioner, ClassName, k);
    CapacitySplit(pvs);
  }

  /** Each fold of the PersistentVolume pass after one volume more. */
  lemma PvStep(pvs: seq<PersistentVolume>, i: nat)
    requires i < |pvs|
    ensures GroupBy([], pvs[..i + 1], PvStatus, PvName) == Push(GroupBy([], pvs[..i], PvStatus, PvName), PvStatus(pvs[i]), pvs[i].name)
    ensures GroupBy([], pvs[..i + 1], PvClass, PvName) == Push(GroupBy([], pvs[..i], PvClass, PvName), PvClass(pvs[i]), pvs[i].name)
    ensures SumNat(pvs[..i + 1], PvCapacity) == SumNat(pvs[..i], PvCapacity) + PvCapacity(pvs[i])
    ensures SumNat(pvs[..i + 1], BoundCapacity) == SumNat(pvs[..i], BoundCapacity) + BoundCapacity(pvs[i])
    ensures SumNat(pvs[..i + 1], FreeCapacity) == SumNat(pvs[..i], FreeCapacity) + FreeCapacity(pvs[i])
  {
    var prefix := pvs[..i + 1];
    assert prefix[..i] == pvs[..i];
  }

  /** The PersistentVolume pass of `analyzeStorageConfig`. */
  method TallyVolumes(pvs: seq<PersistentVolume>)
    returns (pvByStatus: Dict<seq<string>>, pvByStorageClass: Dict<seq<string>>, total: nat, used: nat, available: nat)
    ensures pvByStatus == GroupBy([], pvs, PvStatus, PvName)
    ensures pvByStorageClass == GroupBy([], pvs, PvClass, PvName)
    ensures total == SumNat(pvs, PvCapacity)
    ensures used == SumNat(pvs, BoundCapacity)
    ensures available == SumNat(pvs, FreeCapacity)
  {
    pvByStatus, pvByStorageClass := [], [];
    total, used, available := 0, 0, 0;
    var i := 0;
    while i < |pvs|
      invariant 0 <= i <= |pvs|
      invariant pvByStatus == GroupBy([], pvs[..i], PvStatus, PvName)
      invariant pvByStorageClass == GroupBy([], pvs[..i], PvClass, PvName)
      invariant total == SumNat(pvs[..i], PvCapacity)
      invariant used == SumNat(pvs[..i], BoundCapacity)
      invariant available == SumNat(pvs[..i], FreeCapacity)
    {
      PvStep(pvs, i);
      var pv := pvs[i];
      var status := OrDefault(pv.phase, "Unknown");
      pvByStatus := Push(pvByStatus, status, pv.name);
      var storageClass := OrDefault(pv.storageClassName, "default");
      pvByStorageClass := Push(pvByStorageClass, storageClass, pv.name);
      if pv.capacity.Some? && pv.capacity.value != "" {
        var capacity := ParseStorageCapacity(pv.capacity.value);
        total := total + capacity;
        if status == "Bound" {
          used := used + capacity;
        } else {
          available := available + capacity;
        }
      }
      i := i + 1;
    }
    TakeAll(pvs);
  }

  /** `analyzeStorageConfig(persistentVolumes, persistentVolumeClaims, storageClasses)`:
      three `forEach` passes. */
  method AnalyzeStorageConfig(pvs: seq<PersistentVolume>, pvcs: seq<PersistentVolumeClaim>, scs: seq<StorageClass>)
    returns (a: StorageAnalysis)
    ensures a == AnalysisOf(pvs, pvcs, scs)
  {
    var pvByStatus, pvByStorageClass, total, used, available := TallyVolumes(pvs);

    var pvcByStatus: Dict<seq<string>> := [];
    var j := 0;
    while j < |pvcs|
      invariant 0 <= j <= |pvcs|
      invariant pvcByStatus == GroupBy([], pvcs[..j], PvcStatus, PvcName)
    {
      GroupBySnoc([], pvcs, j, PvcStatus, PvcName);
      pvcByStatus := Push(pvcByStatus, OrDefault(pvcs[j].phase, "Unknown"), pvcs[j].name);
      j := j + 1;
    }
    TakeAll(pvcs);

    var byProvisioner: Dict<seq<string>> := [];
    var k := 0;
    while k < |scs|
      invariant 0 <= k <= |scs|
      invariant byProvisioner == GroupBy([], scs[..k], Provisioner, ClassName)
    {
      GroupBySnoc([], scs, k, Provisioner, ClassName);
      byProvisioner := Push(byProvisioner, OrDefault(scs[k].provisioner, "Unknown"), scs[k].name);
      k := k + 1;
    }
    TakeAll(scs);

    a := StorageAnalysis(|pvs|, |pvcs|, |scs|, pvByStatus, pvcByStatus, pvByStorageClass,
                         Capacity(total, used, available), byProvisioner);
  }
}
