/** Decimal printing of natural numbers, as %d does it. */
module Decimal {
  function Digit(d: nat): char
    requires d < 10
  {
    "0123456789"[d]
  }

  function Print(n: nat): (s: string)
    ensures |s| >= 1 && forall i :: 0 <= i < |s| ==> '0' <= s[i] <= '9'
  {
    if n < 10 then [Digit(n)] else Print(n / 10) + [Digit(n % 10)]
  }

  lemma PrintEnds(n: nat)
    ensures var s, k := Print(n), |Print(n)| - 1;
      s[k] == Digit(n % 10) && (if n < 10 then k == 0 else k > 0 && s[..k] == Print(n / 10))
  {
  }

  /** The number that a row of digits denotes. */
  function Number(s: string): int {
    if s == "" then 0 else Number(s[..|s| - 1]) * 10 + (s[|s| - 1] as int - '0' as int)
  }

  lemma DigitIs(d: nat)
    requires d < 10
    ensures Digit(d) as int - '0' as int == d
  {
  }

  /** What is printed denotes the number, and does not begin with a zero unless it is one. */
  lemma {:induction false} PrintDenotes(n: nat)
    ensures Number(Print(n)) == n
    ensures Print(n)[0] == '0' <==> n == 0
  {
    PrintEnds(n);
    DigitIs(n % 10);
    var s := Print(n);
    if n >= 10 {
      PrintDenotes(n / 10);
      assert s[0] == s[..|s| - 1][0];
    } else {
      assert s[..|s| - 1] == "";
    }
  }

  /** Different numbers print differently. */
  lemma PrintIsInjective(m: nat, n: nat)
    requires Print(m) == Print(n)
    ensures m == n
  {
    PrintDenotes(m);
    PrintDenotes(n);
  }
}

/** The Kubernetes device plugin: fractional devices and how they are handed out. */
module DevicePlugin {
  import opened Common
  import opened Decimal

  const FRACTIONS := 10

  datatype Device = Device(id: string, healthy: bool)

  function DeviceId(gpu: nat, fraction: nat): string { "gpu-" + Print(gpu) + "-fraction-" + Print(fraction) }

  /** An id can be read back: the GPU number ends at the first dash after "gpu-". */
  lemma DeviceIdIsInjective(g1: nat, f1: nat, g2: nat, f2: nat)
    requires DeviceId(g1, f1) == DeviceId(g2, f2)
    ensures g1 == g2 && f1 == f2
  {
    var s := DeviceId(g1, f1);
    Middle(g1, f1);
    Middle(g2, f2);
    var n1, n2 := 4 + |Print(g1)|, 4 + |Print(g2)|;
    assert s[n1] == '-' && s[n2] == '-';
    assert n1 == n2;
    assert Print(g1) == s[4..n1] && Print(g2) == s[4..n2];
    assert Print(f1) == s[n1 + 10..] && Print(f2) == s[n2 + 10..];
    PrintIsInjective(g1, g2);
    PrintIsInjective(f1, f2);
  }

  lemma Middle(g: nat, f: nat)
    ensures var s, n := DeviceId(g, f), 4 + |Print(g)|;
      && n + 10 <= |s| && s[n] == '-' && s[4..n] == Print(g) && s[n + 10..] == Print(f)
      && forall i :: 4 <= i < n ==> s[i] != '-'
  {
    Layout(Print(g), Print(f));
  }

  lemma Layout(p: string, q: string)
    ensures var s, n := "gpu-" + p + "-fraction-" + q, 4 + |p|;
      && n + 10 <= |s| && s[n] == '-' && s[4..n] == p && s[n + 10..] == q
      && forall i :: 4 <= i < n ==> s[i] == p[i - 4]
  {
  }

  // ----- Preferred allocation -----

  /** The ids of `available` that are not in `taken`, each at its first occurrence. */
  function Unused(available: seq<string>, taken: set<string>): seq<string> {
    if available == [] then []
    else if available[0] in taken then Unused(available[1..], taken)
    else [available[0]] + Unused(available[1..], taken + {available[0]})
  }

  function FirstUpTo(s: seq<string>, k: int): seq<string> { s[..Min(Max(k, 0), |s|)] }

  /** The must-include ids, then as many unused ones as are still needed. */
  function Preferred(must: seq<string>, available: seq<string>, size: int): seq<string> {
    must + FirstUpTo(Unused(available, Elements(must)), size - |must|)
  }

  lemma {:induction false} UnusedMeans(available: seq<string>, taken: set<string>)
    ensures Distinct(Unused(available, taken))
    ensures Elements(Unused(available, taken)) == Elements(available) - taken
  {
    if available != [] {
      var head, tail := available[0], available[1..];
      assert Elements(available) == Elements(tail) + {head};
      if head in taken {
        UnusedMeans(tail, taken);
      } else {
        UnusedMeans(tail, taken + {head});
        var rest := Unused(tail, taken + {head});
        assert Elements([head] + rest) == {head} + Elements(rest);
        assert head !in Elements(rest);
      }
    }
  }

  /** Where x first occurs. */
  function FirstIndex(s: seq<string>, x: string): (k: nat)
    requires x in s
    ensures k < |s| && s[k] == x && x !in s[..k]
  {
    if s[0] == x then 0 else FirstIndex(s[1..], x) + 1
  }

  /** The unused ids come in the order in which they first occur. */
  lemma {:induction false} UnusedInOrder(available: seq<string>, taken: set<string>, i: nat, j: nat)
    requires i < j < |Unused(available, taken)|
    ensures var u := Unused(available, taken);
      u[i] in available && u[j] in available && FirstIndex(available, u[i]) < FirstIndex(available, u[j])
  {
    var head, tail, u := available[0], available[1..], Unused(available, taken);
    UnusedMeans(available, taken);
    assert u[i] in Elements(u) && u[j] in Elements(u);
    if head in taken {
      UnusedInOrder(tail, taken, i, j);
    } else if i > 0 {
      var rest := Unused(tail, taken + {head});
      UnusedInOrder(tail, taken + {head}, i - 1, j - 1);
      assert u[0] == head && u[i] == rest[i - 1] && u[j] == rest[j - 1];
    } else {
      assert u[i] == head && u[j] != head;
    }
  }

  /** The result keeps the must-include list in front, adds nothing that is not available, repeats
      nothing new, never exceeds the size unless the must-include list does, and falls short of it
      only when every available id is used. */
  lemma PreferredIsGreedy(must: seq<string>, available: seq<string>, size: int)
    ensures var r := Preferred(must, available, size);
      && must <= r
      && Elements(r) <= Elements(must) + Elements(available)
      && (Distinct(must) ==> Distinct(r))
      && |r| == |must| + Min(Max(size - |must|, 0), |Elements(available) - Elements(must)|)
      && (|r| < size ==> Elements(available) <= Elements(r))
  {
    var taken := Elements(must);
    var unused := Unused(available, taken);
    UnusedMeans(available, taken);
    DistinctSize(unused);
    var added := FirstUpTo(unused, size - |must|);
    assert Elements(must + added) == taken + Elements(added);
    assert Elements(added) <= Elements(unused);
    if Distinct(must) {
      forall i, j | 0 <= i < j < |must + added|
        ensures (must + added)[i] != (must + added)[j]
      {
        if i < |must| <= j {
          assert (must + added)[i] in taken && (must + added)[j] in Elements(unused);
        }
      }
    }
    if |must + added| < size {
      assert added == unused;
    }
  }

  lemma {:induction false} DistinctSize(s: seq<string>)
    requires Distinct(s)
    ensures |Elements(s)| == |s|
  {
    if s != [] {
      DistinctSize(s[1..]);
      assert Elements(s) == Elements(s[1..]) + {s[0]};
      assert s[0] !in Elements(s[1..]);
    }
  }

  /** Unused ids of a list that grows at the end. */
  lemma {:induction false} UnusedSnoc(available: seq<string>, id: string, taken: set<string>)
    ensures Unused(available + [id], taken) ==
      Unused(available, taken) + (if id in taken || id in Elements(available) then [] else [id])
  {
    if available == [] {
      assert available + [id] == [id];
    } else {
      var head, tail := available[0], available[1..];
      assert (available + [id])[1..] == tail + [id];
      assert Elements(available) == Elements(tail) + {head};
      if head in taken {
        UnusedSnoc(tail, id, taken);
      } else {
        UnusedSnoc(tail, id, taken + {head});
      }
    }
  }

  /** One container request of GetPreferredAllocation. */
  method PreferredAllocation(must: seq<string>, available: seq<string>, size: int) returns (chosen: seq<string>)
    ensures chosen == Preferred(must, available, size)
  {
    chosen := must;
    var needed := size - |must|;
    ghost var unused := Unused(available, Elements(must));
    var i := 0;
    while i < |available|
      invariant 0 <= i <= |available|
      invariant Unused(available[..i], Elements(must)) <= unused
      invariant chosen == must + FirstUpTo(Unused(available[..i], Elements(must)), size - |must|)
      invariant needed == size - |must| - (|chosen| - |must|)
    {
      if needed <= 0 {
        break;
      }
      ghost var before := Unused(available[..i], Elements(must));
      assert chosen == must + before;
      var found := false;
      var j := 0;
      while j < |chosen|
        invariant 0 <= j <= |chosen|
        invariant !found && available[i] !in chosen[..j]
      {
        if chosen[j] == available[i] {
          found := true;
          break;
        }
        j := j + 1;
      }
      assert found <==> available[i] in chosen;
      UnusedMeans(available[..i], Elements(must));
      UnusedSnoc(available[..i], available[i], Elements(must));
      assert available[..i] + [available[i]] == available[..i + 1];
      UnusedPrefix(available, i + 1, Elements(must));
      assert available[i] in chosen <==> available[i] in Elements(must) || available[i] in Elements(available[..i]) by {
        assert Elements(chosen) == Elements(must) + Elements(before);
        assert available[i] in chosen <==> available[i] in Elements(chosen);
      }
      if !found {
        chosen := chosen + [available[i]];
        needed := needed - 1;
      }
      i := i + 1;
    }
    assert i == |available| ==> available[..i] == available;
  }

  lemma {:induction false} UnusedPrefix(available: seq<string>, i: nat, taken: set<string>)
    requires i <= |available|
    ensures Unused(available[..i], taken) <= Unused(available, taken)
    decreases |available| - i
  {
    if i == |available| {
      assert available[..i] == available;
    } else {
      UnusedPrefix(available, i + 1, taken);
      UnusedSnoc(available[..i], available[i], taken);
      assert available[..i] + [available[i]] == available[..i + 1];
    }
  }

  // ----- The devices and their names -----

  class DanteGPUDevicePlugin {
    const gpuCount: int
    var devices: seq<Device>

    constructor (gpuCount: int)
      ensures this.gpuCount == gpuCount && devices == []
    {
      this.gpuCount := gpuCount;
      devices := [];
    }

    /** Ten devices per GPU, all different. With a negative count the allocation panics. */
    method InitializeDevices() returns (panicked: bool)
      modifies this`devices
      ensures panicked <==> gpuCount < 0
      ensures panicked ==> devices == old(devices)
      ensures !panicked ==> devices == AllDevices(gpuCount)
    {
      if gpuCount * 10 < 0 {
        return true;
      }
      devices := [];
      var i := 0;
      while i < gpuCount
        invariant 0 <= i <= gpuCount
        invariant devices == AllDevices(i)
      {
        var j := 0;
        while j < 10
          invariant 0 <= j <= 10
          invariant devices == AllDevices(i) + Fractions(i, j)
        {
          devices := devices + [Device(DeviceId(i, j), true)];
          j := j + 1;
        }
        i := i + 1;
      }
      return false;
    }
  }

  function Fractions(gpu: nat, n: nat): seq<Device> { seq(n, j requires 0 <= j => Device(DeviceId(gpu, j), true)) }

  function AllDevices(gpus: nat): (r: seq<Device>)
    ensures |r| == gpus * FRACTIONS
  {
    if gpus == 0 then [] else AllDevices(gpus - 1) + Fractions(gpus - 1, FRACTIONS)
  }

  lemma {:induction false} DeviceAt(gpus: nat, gpu: nat, fraction: nat)
    requires gpu < gpus && fraction < FRACTIONS
    ensures gpu * FRACTIONS + fraction < |AllDevices(gpus)|
    ensures AllDevices(gpus)[gpu * FRACTIONS + fraction] == Device(DeviceId(gpu, fraction), true)
  {
    if gpu < gpus - 1 {
      DeviceAt(gpus - 1, gpu, fraction);
    }
  }

  /** Ten devices a GPU, all healthy, named after their GPU and their place in it. */
  lemma DeviceAtIndex(gpus: nat, k: nat)
    requires k < |AllDevices(gpus)|
    ensures |AllDevices(gpus)| == gpus * 10
    ensures AllDevices(gpus)[k] == Device("gpu-" + Print(k / 10) + "-fraction-" + Print(k % 10), true)
  {
    var gpu, fraction := k / FRACTIONS, k % FRACTIONS;
    assert k == gpu * FRACTIONS + fraction;
    DeviceAt(gpus, gpu, fraction);
  }

  /** The plugin advertises exactly 10 * gpuCount pairwise different ids. */
  lemma DevicesAreDistinct(gpus: nat, k: nat, l: nat)
    requires k < |AllDevices(gpus)| && l < |AllDevices(gpus)|
    requires AllDevices(gpus)[k].id == AllDevices(gpus)[l].id
    ensures |AllDevices(gpus)| == gpus * FRACTIONS && k == l
  {
    DeviceAtIndex(gpus, k);
    DeviceAtIndex(gpus, l);
    DeviceIdIsInjective(k / FRACTIONS, k % FRACTIONS, l / FRACTIONS, l % FRACTIONS);
  }

  datatype DeviceSpec = DeviceSpec(containerPath: string, hostPath: string)

  function Annotation(i: nat): string { "dante.ai/gpu-" + Print(i) + "-id" }

  lemma AnnotationIsInjective(i: nat, j: nat)
    requires Annotation(i) == Annotation(j)
    ensures i == j
  {
    var s := Annotation(i);
    assert s[13..|s| - 3] == Print(i) && Annotation(j)[13..|s| - 3] == Print(j);
    PrintIsInjective(i, j);
  }

  function Spec(i: nat, id: string): DeviceSpec {
    DeviceSpec("/dev/dante-gpu" + Print(i), "/dev/dante-gpu-" + id)
  }

  function Specs(ids: seq<string>): seq<DeviceSpec> {
    if ids == [] then [] else Specs(ids[..|ids| - 1]) + [Spec(|ids| - 1, ids[|ids| - 1])]
  }

  /** The i-th container path is numbered; the host path is that of the i-th device. */
  lemma {:induction false} SpecAt(ids: seq<string>, i: nat)
    requires i < |ids|
    ensures |Specs(ids)| == |ids|
    ensures Specs(ids)[i] == DeviceSpec("/dev/dante-gpu" + Print(i), "/dev/dante-gpu-" + ids[i])
  {
    if |ids| > 1 {
      SpecAt(ids[..|ids| - 1], Min(i, |ids| - 2));
    }
  }

  function Annotated(ids: seq<string>): map<string, string> {
    if ids == [] then map[] else Annotated(ids[..|ids| - 1])[Annotation(|ids| - 1) := ids[|ids| - 1]]
  }

  lemma {:induction false} AnnotationIsNew(ids: seq<string>, i: nat)
    requires |ids| <= i
    ensures Annotation(i) !in Annotated(ids)
  {
    if ids != [] {
      var n := |ids| - 1;
      AnnotationIsNew(ids[..n], i);
      if Annotation(i) == Annotation(n) {
        AnnotationIsInjective(i, n);
      }
    }
  }

  /** The annotations give back every id at its position, even when ids repeat. */
  lemma {:induction false} AnnotationAt(ids: seq<string>, i: nat)
    requires i < |ids|
    ensures var key := "dante.ai/gpu-" + Print(i) + "-id"; key in Annotated(ids) && Annotated(ids)[key] == ids[i]
  {
    var n := |ids| - 1;
    if i < n {
      AnnotationAt(ids[..n], i);
      AnnotationIsNew(ids[..n], n);
    }
  }

  /** And there are no others. */
  lemma {:induction false} AnnotationCount(ids: seq<string>)
    ensures |Annotated(ids)| == |ids|
  {
    if ids != [] {
      AnnotationCount(ids[..|ids| - 1]);
      AnnotationIsNew(ids[..|ids| - 1], |ids| - 1);
    }
  }

  /** One container of Allocate. */
  method AllocateContainer(ids: seq<string>) returns (specs: seq<DeviceSpec>, annotations: map<string, string>)
    ensures specs == Specs(ids) && annotations == Annotated(ids)
  {
    specs, annotations := [], map[];
    var i := 0;
    while i < |ids|
      invariant 0 <= i <= |ids|
      invariant specs == Specs(ids[..i]) && annotations == Annotated(ids[..i])
    {
      assert ids[..i + 1][..i] == ids[..i];
      specs := specs + [Spec(i, ids[i])];
      annotations := annotations[Annotation(i) := ids[i]];
      i := i + 1;
    }
    assert ids[..i] == ids;
  }
}
