/** Progress reports and the overall bar (`writer/progress.rs`, `ui.rs`). */
module Progress {
  import opened Wrappers

  datatype InstallPhase =
    | Writing
    | Expanding
    | RandomizingUuids
    | EncryptionSetup
    | RebuildingBootConfig
    | VerifyingPartitions
    | ApplyingConfig

  function BarStart(phase: InstallPhase): real {
    match phase
    case Writing => 0.0
    case Expanding => 0.90
    case RandomizingUuids => 0.92
    case EncryptionSetup => 0.93
    case RebuildingBootConfig => 0.94
    case VerifyingPartitions => 0.96
    case ApplyingConfig => 0.97
  }

  function BarEnd(phase: InstallPhase): real {
    match phase
    case Writing => 0.90
    case Expanding => 0.92
    case RandomizingUuids => 0.93
    case EncryptionSetup => 0.94
    case RebuildingBootConfig => 0.96
    case VerifyingPartitions => 0.97
    case ApplyingConfig => 1.0
  }

  datatype Snapshot = Snapshot(bytesWritten: nat, totalBytes: Option<nat>, phase: InstallPhase)

  function Min(a: real, b: real): real {
    if a <= b then a else b
  }

  function WriteFraction(s: Snapshot): real {
    match s.totalBytes
    case None => 0.0
    case Some(t) => if t == 0 then 0.0 else s.bytesWritten as real / t as real
  }

  function OverallFraction(s: Snapshot): real {
    if s.phase == Writing then Min(WriteFraction(s), 1.0) * BarEnd(Writing) else BarStart(s.phase)
  }

  /** `b` may follow `a` on one bar: a later phase, the same phase without
      losing bytes, or the closing report of the writing phase. */
  predicate Follows(a: Snapshot, b: Snapshot) {
    || BarEnd(a.phase) <= BarStart(b.phase)
    || (a.phase == b.phase == Writing && a.totalBytes == b.totalBytes && a.bytesWritten <= b.bytesWritten)
    || (a.phase == b.phase == Writing && a.bytesWritten <= b.bytesWritten && b.totalBytes == Some(b.bytesWritten))
  }

  predicate Orderly(sent: seq<Snapshot>) {
    forall i :: 0 < i < |sent| ==> Follows(sent[i - 1], sent[i])
  }

  lemma DivideMonotone(a: nat, b: nat, t: nat)
    requires a <= b && t > 0
    ensures 0.0 <= a as real / t as real <= b as real / t as real
    ensures a == 0 ==> a as real / t as real == 0.0
    ensures a == t ==> a as real / t as real == 1.0
  {
    DivideReals(a as real, b as real, t as real);
  }

  lemma DivideReals(a: real, b: real, t: real)
    requires 0.0 <= a <= b && t > 0.0
    ensures 0.0 <= a / t <= b / t
    ensures a == 0.0 ==> a / t == 0.0
    ensures a == t ==> a / t == 1.0
  {
    var x, y := a / t, b / t;
    assert x * t == a && y * t == b;
    SignOfProduct(x, t);
    SignOfProduct(y - x, t);
    assert (y - x) * t == b - a;
  }

  lemma SignOfProduct(x: real, t: real)
    requires t > 0.0
    ensures x < 0.0 ==> x * t < 0.0
  {
  }

  lemma FractionInUnit(s: Snapshot)
    ensures 0.0 <= OverallFraction(s) <= 1.0
    ensures OverallFraction(s) <= BarEnd(s.phase)
  {
    if s.phase == Writing && s.totalBytes.Some? && s.totalBytes.value > 0 {
      DivideMonotone(0, s.bytesWritten, s.totalBytes.value);
    }
  }

  lemma FollowsRaises(a: Snapshot, b: Snapshot)
    requires Follows(a, b)
    ensures OverallFraction(a) <= OverallFraction(b)
  {
    FractionInUnit(a);
    FractionInUnit(b);
    if BarEnd(a.phase) > BarStart(b.phase) {
      if a.totalBytes.Some? && a.totalBytes.value > 0 {
        DivideMonotone(a.bytesWritten, b.bytesWritten, a.totalBytes.value);
      }
      if b.bytesWritten > 0 {
        DivideMonotone(b.bytesWritten, b.bytesWritten, b.bytesWritten);
      }
    }
  }

  /** The bar never moves back and stays within its ends. */
  lemma {:induction false} BarNeverFalls(sent: seq<Snapshot>, i: nat, j: nat)
    requires Orderly(sent) && i <= j < |sent|
    ensures 0.0 <= OverallFraction(sent[i]) <= OverallFraction(sent[j]) <= 1.0
    decreases j - i
  {
    FractionInUnit(sent[i]);
    FractionInUnit(sent[j]);
    if i < j {
      BarNeverFalls(sent, i, j - 1);
      FollowsRaises(sent[j - 1], sent[j]);
    }
  }

  /** The receiver of progress reports. */
  class Reporter {
    var sent: seq<Snapshot>

    constructor ()
      ensures sent == []
    {
      sent := [];
    }

    /** A write report, as `From<&WriteProgress>` turns it into a snapshot. */
    method Report(bytesWritten: nat, totalBytes: Option<nat>)
      modifies this
      ensures sent == old(sent) + [Snapshot(bytesWritten, totalBytes, Writing)]
    {
      sent := sent + [Snapshot(bytesWritten, totalBytes, Writing)];
    }

    method SendPhase(phase: InstallPhase)
      modifies this
      ensures sent == old(sent) + [Snapshot(0, None, phase)]
    {
      sent := sent + [Snapshot(0, None, phase)];
    }
  }
}
