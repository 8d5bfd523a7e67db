/** Severity levels and `SEV_RANK` (lineagekit/impact.py:4): LOW=1,
    MEDIUM=2, HIGH=3, CRITICAL=4. */
module Severities {
  import opened Text

  datatype Level = Low | Medium | High | Critical {
    function Rank(): (r: nat)
      ensures 1 <= r <= 4
    {
      match this
      case Low => 1
      case Medium => 2
      case High => 3
      case Critical => 4
    }

    function Name(): string {
      match this
      case Low => "LOW"
      case Medium => "MEDIUM"
      case High => "HIGH"
      case Critical => "CRITICAL"
    }
  }

  /** `SEV_RANK[name]` as a lookup that may miss (a `KeyError` in Python). */
  function RankOfName(name: string): (r: Option<nat>)
    ensures r.None? ==> forall l: Level :: l.Name() != name
    ensures forall l: Level :: l.Name() == name ==> r == Some(l.Rank())
  {
    if name == "LOW" then Some(1)
    else if name == "MEDIUM" then Some(2)
    else if name == "HIGH" then Some(3)
    else if name == "CRITICAL" then Some(4)
    else None
  }

  /** The level a name stands for. */
  function LevelOfName(name: string): (r: Option<Level>)
    ensures r.Some? ==> r.value.Name() == name
    ensures forall l: Level :: l.Name() == name ==> r == Some(l)
  {
    if name == "LOW" then Some(Low)
    else if name == "MEDIUM" then Some(Medium)
    else if name == "HIGH" then Some(High)
    else if name == "CRITICAL" then Some(Critical)
    else None
  }

  /** The ranks order the levels strictly, and a rank names one level. */
  lemma RankOrder()
    ensures Low.Rank() < Medium.Rank() < High.Rank() < Critical.Rank()
    ensures forall a: Level, b: Level :: a.Rank() == b.Rank() ==> a == b
  {
  }
}
