/**
 The runtime-environment classifier of `ApplicationRuntime`.

 The classifier looks at three facts about the process it runs in (the
 platform SDK level, whether the JUnit `Assert` class can be loaded, and the
 `java.runtime.name` system property) and answers with a Kotlin `Int` bitmask
 built from seven single-bit `RUNTIME_*` flags. `contains` asks whether every
 one of a list of flags is set in that mask.

 The reflection probe and the property read are parameters here: an
 `Environment` value carries their outcomes, and every operation is a pure
 function of it. A Kotlin `Int` is a 32-bit two's-complement value whose
 `and`/`or` act on the bit pattern, so masks are `bv32`.
 */
module ApplicationRuntime {
  import KotlinString
  import opened Masks

  // The seven RUNTIME_* flags, one bit each.

  /** Running under a JUnit test case. */
  const RuntimeJunit: bv32 := 1 << 0
  /** Running under JUnit with Robolectric. */
  const RuntimeRobolectric: bv32 := 1 << 1
  /** Running under JUnit as an instrumentation test on an Android device. */
  const RuntimeInstrumentation: bv32 := 1 << 2
  /** Running on an Android device. */
  const RuntimeAndroidDevice: bv32 := 1 << 3
  /** Running on the ART virtual machine. */
  const RuntimeArt: bv32 := 1 << 4
  /** Running on the Dalvik virtual machine. */
  const RuntimeDalvik: bv32 := 1 << 5
  /** Running on a desktop Java VM. */
  const RuntimeJavaVm: bv32 := 1 << 6

  /** The bits used by some RUNTIME_* flag. */
  const KnownBits: bv32 := 0x7F

  /** `Build.VERSION_CODES.LOLLIPOP`, the first SDK level that runs ART. */
  const Lollipop: int := 21

  /** The flags, by name. */
  datatype Flag = Junit | Robolectric | Instrumentation | AndroidDevice | Art | Dalvik | JavaVm
  {
    /** The RUNTIME_* constant of this flag: a single bit among the known bits. */
    function Value(): (v: bv32)
      ensures v != 0 && v & (v - 1) == 0
      ensures v & KnownBits == v
    {
      match this
      case Junit => RuntimeJunit
      case Robolectric => RuntimeRobolectric
      case Instrumentation => RuntimeInstrumentation
      case AndroidDevice => RuntimeAndroidDevice
      case Art => RuntimeArt
      case Dalvik => RuntimeDalvik
      case JavaVm => RuntimeJavaVm
    }
  }

  const AllFlags: set<Flag> := {Junit, Robolectric, Instrumentation, AndroidDevice, Art, Dalvik, JavaVm}

  /** Flag `f` is set in `mask`. */
  predicate Has(mask: bv32, f: Flag)
  {
    Includes(mask, f.Value())
  }

  /** The flags set in `mask`; bits outside the known ones are ignored. */
  function Decode(mask: bv32): set<Flag>
  {
    set f | f in AllFlags && Has(mask, f)
  }

  /** The contribution of flag `f` to the mask of the flag set `s`. */
  function Bit(s: set<Flag>, f: Flag): (b: bv32)
    ensures Includes(KnownBits, b)
  {
    if f in s then f.Value() else 0
  }

  /** The mask whose set flags are exactly `s`. */
  function Encode(s: set<Flag>): (mask: bv32)
    ensures Includes(KnownBits, mask)
  {
    Bit(s, Junit) | Bit(s, Robolectric) | Bit(s, Instrumentation) | Bit(s, AndroidDevice)
      | Bit(s, Art) | Bit(s, Dalvik) | Bit(s, JavaVm)
  }

  /** Outcome of `System.getProperty`, which yields `null` for an unset property. */
  datatype Option<T> = None | Some(value: T)

  /**
   The facts the classifier probes. `runtimeProperty` is the value of the
   `java.runtime.name` system property, already lower-cased, or `None` when
   the property is not set.
   */
  datatype Environment = Environment(sdkInt: int, junitPresent: bool, runtimeProperty: Option<string>)

  /** The runtime name the classifier inspects: the property, or "" when it is not set. */
  function RuntimeName(env: Environment): string
  {
    match env.runtimeProperty
    case None => ""
    case Some(name) => name
  }

  /** The virtual machine of a device at SDK level `sdkInt`: ART from Lollipop on, Dalvik before it. */
  function VirtualMachine(sdkInt: int): Flag
  {
    if sdkInt >= Lollipop then Art else Dalvik
  }

  /** The flag of that virtual machine. */
  function VirtualMachineFlags(sdkInt: int): bv32
  {
    VirtualMachine(sdkInt).Value()
  }

  /**
   The classifier. Without JUnit on the class path the process runs on a
   device. With JUnit, an empty runtime name still means a device, a name
   containing "android" means an instrumentation test on a device, and any
   other name means a Robolectric test on a desktop Java VM, which carries
   no virtual-machine flag.
   */
  function RuntimeFlagsImpl(env: Environment): (flags: bv32)
    ensures Includes(KnownBits, flags) && 0 < flags as int < 128
    ensures !env.junitPresent ==> flags == VirtualMachineFlags(env.sdkInt) | RuntimeAndroidDevice
    ensures !(Has(flags, Art) && Has(flags, Dalvik))
    ensures Has(flags, JavaVm) != Has(flags, AndroidDevice)
    ensures Has(flags, Robolectric) ==> Has(flags, Junit) && Has(flags, JavaVm)
    ensures Has(flags, Instrumentation) ==> Has(flags, Junit) && Has(flags, AndroidDevice)
  {
    var virtualMachineFlags := VirtualMachineFlags(env.sdkInt);
    if !env.junitPresent then
      virtualMachineFlags | RuntimeAndroidDevice
    else
      var runtimeName := RuntimeName(env);
      if |runtimeName| == 0 then
        virtualMachineFlags | RuntimeAndroidDevice
      else if KotlinString.Contains(runtimeName, "android") then
        virtualMachineFlags | RuntimeAndroidDevice | RuntimeJunit | RuntimeInstrumentation
      else
        RuntimeJunit | RuntimeRobolectric | RuntimeJavaVm
  }

  /** The `runtimeFlags` property: computed afresh from the environment on every read. */
  function RuntimeFlags(env: Environment): bv32
  {
    RuntimeFlagsImpl(env)
  }

  /** `contains(flag, *flags)`: every bit of every requested flag is set in the runtime flags. */
  function Contains(env: Environment, flag: bv32, flags: seq<bv32>): (r: bool)
    ensures r <==> Includes(RuntimeFlags(env), flag) && forall j :: 0 <= j < |flags| ==> Includes(RuntimeFlags(env), flags[j])
  {
    var allFlags := CombineFlags(flag, flags);
    CombineFlagsLeast(RuntimeFlags(env), flag, flags);
    RuntimeFlags(env) & allFlags == allFlags
  }
}
