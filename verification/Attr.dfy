/**
  The 55 fields of struct perf_event_attr that the trace log carries.  An attribute is
  the value of each field; the members of an anonymous union share one field.
*/
module Attr {
  import opened Scanf

  datatype Field =
    | Type | Size | Config | SamplePeriod | SampleType | ReadFormat
    | Disabled | Inherit | Pinned | Exclusive
    | ExcludeUser | ExcludeKernel | ExcludeHv | ExcludeIdle
    | Mmap | Comm | Freq | InheritStat
    | EnableOnExec | Task | Watermark | PreciseIp
    | MmapData | SampleIdAll | ExcludeHost | ExcludeGuest
    | ExcludeCallchainKernel | ExcludeCallchainUser
    | Mmap2 | CommExec | UseClockid | ContextSwitch
    | WriteBackward | Namespaces | Ksymbol | BpfEvent | AuxOutput
    | Cgroup | TextPoke | BuildId | InheritThread | RemoveOnExec | Sigtrap
    | WakeupEvents | BpType | Config1 | Config2 | BranchSampleType | SampleRegsUser
    | SampleStackUser | Clockid | SampleRegsIntr | AuxWatermark | SampleMaxStack | AuxSampleSize
  {
    /** Width in bits, as declared in include/perf_event.h. */
    function Bits(): nat {
      match this
      case Type | Size | WakeupEvents | BpType | SampleStackUser | Clockid | AuxWatermark | AuxSampleSize => 32
      case Config | SamplePeriod | SampleType | ReadFormat => 64
      case Config1 | Config2 | BranchSampleType | SampleRegsUser | SampleRegsIntr => 64
      case SampleMaxStack => 16
      case PreciseIp => 2
      case _ => 1
    }
  }

  type AttrMap = map<Field, nat>

  ghost predicate Valid(a: AttrMap) {
    forall f: Field :: f in a && a[f] < Modulus(f.Bits())
  }

  /** memset(&pe, 0, sizeof(struct perf_event_attr)) */
  function Zeroed(): (a: AttrMap)
    ensures forall f: Field :: f in a && a[f] == 0
  {
    map f: Field | f.Bits() > 0 :: 0
  }
}
