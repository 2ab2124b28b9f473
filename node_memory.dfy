/** The memory cap handed to the Node process at deployment: the smaller of
    70% of total memory and 80% of free memory, in MiB, clamped to
    [1000, 32000]. The fractional products are computed on integers,
    `7 * t / 10` and `8 * f / 10`, which is what `Math.floor` of the exact
    products gives. */
module NodeMemory {

  const MinMem: int := 1000
  const MaxMem: int := 32000

  /** `Math.floor(bytes / 1024 / 1024)`. */
  function ToMiB(bytes: nat): nat {
    bytes / 1024 / 1024
  }

  /** `Math.floor(totalMemMB * 0.7)`. */
  function TargetByTotal(totalMiB: nat): nat {
    totalMiB * 7 / 10
  }

  /** `Math.floor(freeMemMB * 0.8)`. */
  function SafeByFree(freeMiB: nat): nat {
    freeMiB * 8 / 10
  }

  function Min(a: int, b: int): int {
    if a <= b then a else b
  }

  function Max(a: int, b: int): int {
    if a >= b then a else b
  }

  /** The limit before clamping. */
  function RawLimit(totalMiB: nat, freeMiB: nat): int {
    Min(TargetByTotal(totalMiB), SafeByFree(freeMiB))
  }

  /** The limit for the given memory sizes in MiB. */
  function MemLimitFor(totalMiB: nat, freeMiB: nat): (r: int)
    ensures MinMem <= r <= MaxMem
    ensures var raw := RawLimit(totalMiB, freeMiB);
            && (MinMem <= raw <= MaxMem ==> r == raw)
            && (raw < MinMem ==> r == MinMem)
            && (raw > MaxMem ==> r == MaxMem)
    ensures r <= Max(MinMem, TargetByTotal(totalMiB))
    ensures r <= Max(MinMem, SafeByFree(freeMiB))
  {
    var raw := RawLimit(totalMiB, freeMiB);
    if raw < MinMem then MinMem else if raw > MaxMem then MaxMem else raw
  }

  /** The script: compute both bounds, take the smaller, then clamp it from
      below and from above, in that order. */
  method MemLimit(totalBytes: nat, freeBytes: nat) returns (memLimit: int)
    ensures memLimit == MemLimitFor(ToMiB(totalBytes), ToMiB(freeBytes))
    ensures MinMem <= memLimit <= MaxMem
  {
    var totalMemMB := totalBytes / 1024 / 1024;
    var freeMemMB := freeBytes / 1024 / 1024;
    var targetByTotal := totalMemMB * 7 / 10;
    var safeByFree := freeMemMB * 8 / 10;
    memLimit := if targetByTotal <= safeByFree then targetByTotal else safeByFree;
    if memLimit < MinMem {
      memLimit := MinMem;
    }
    if memLimit > MaxMem {
      memLimit := MaxMem;
    }
  }

  /** More memory, total or free, never lowers the limit. */
  lemma MemLimitMonotone(total1: nat, free1: nat, total2: nat, free2: nat)
    requires total1 <= total2 && free1 <= free2
    ensures MemLimitFor(total1, free1) <= MemLimitFor(total2, free2)
  {
  }

  /** The three worked cases of the sizing rule. */
  lemma WorkedExamples()
    ensures MemLimitFor(10000, 5000) == 4000
    ensures MemLimitFor(500, 500) == 1000
    ensures MemLimitFor(100000, 100000) == 32000
  {
  }
}
