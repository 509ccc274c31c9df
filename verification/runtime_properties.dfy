/**
 What the runtime flags mean.

 `Classify` is a reference description of the classifier that uses sets of
 named flags instead of bits. It picks one execution context and then the
 flag group of that context. The lemmas below tie the bitmask model to it.
 They cover exclusivity and implication between flags, the range of the
 mask, determinism, and the "has all of these flags" meaning of `contains`.
 */
module RuntimeProperties {
  import KotlinString
  import opened Masks
  import opened ApplicationRuntime

  /** The three mutually exclusive situations the classifier tells apart. */
  datatype ExecutionContext =
    | OnDevice            // application code on a device, not under JUnit
    | InstrumentationTest // JUnit on a device
    | RobolectricTest     // JUnit with Robolectric on a desktop Java VM

  /** The execution context the probes reveal. */
  function ContextOf(env: Environment): ExecutionContext
  {
    var name := RuntimeName(env);
    if !env.junitPresent || name == "" then OnDevice
    else if KotlinString.Contains(name, "android") then InstrumentationTest
    else RobolectricTest
  }

  /** The flags of an environment, by context. */
  function Classify(env: Environment): set<Flag>
  {
    match ContextOf(env)
    case OnDevice => {VirtualMachine(env.sdkInt), AndroidDevice}
    case InstrumentationTest => {VirtualMachine(env.sdkInt), AndroidDevice, Junit, Instrumentation}
    case RobolectricTest => {Junit, Robolectric, JavaVm}
  }

  /** The seven constants are pairwise distinct bits, together filling the known bits. */
  lemma FlagValuesAreDistinctBits(f: Flag, g: Flag)
    ensures f != g ==> f.Value() & g.Value() == 0
    ensures Encode(AllFlags) == KnownBits
  {
  }

  /** Decoding the mask of a flag set gives the set back. */
  lemma DecodeEncode(s: set<Flag>)
    ensures Decode(Encode(s)) == s
  {
    forall f
      ensures f in Decode(Encode(s)) <==> f in s
    {
      FlagValuesAreDistinctBits(f, Junit);
      match f
      case Junit =>
      case Robolectric =>
      case Instrumentation =>
      case AndroidDevice =>
      case Art =>
      case Dalvik =>
      case JavaVm =>
    }
  }

  /** Encoding the flags of a mask gives back its known bits. */
  lemma EncodeDecode(mask: bv32)
    ensures Encode(Decode(mask)) == mask & KnownBits
  {
    var s := Decode(mask);
    DecodedBit(mask, Junit);
    DecodedBit(mask, Robolectric);
    DecodedBit(mask, Instrumentation);
    DecodedBit(mask, AndroidDevice);
    DecodedBit(mask, Art);
    DecodedBit(mask, Dalvik);
    DecodedBit(mask, JavaVm);
    MaskedBitsCombine(mask);
  }

  /** A flag contributes to the mask of the decoded set exactly its bit of the mask. */
  lemma DecodedBit(mask: bv32, f: Flag)
    ensures Bit(Decode(mask), f) == mask & f.Value()
  {
    var v := f.Value();
    if !Has(mask, f) {
      assert mask & v != v;
    }
  }

  /** The known bits of a mask are the OR of its seven masked flag bits. */
  lemma MaskedBitsCombine(mask: bv32)
    ensures (mask & RuntimeJunit) | (mask & RuntimeRobolectric) | (mask & RuntimeInstrumentation)
      | (mask & RuntimeAndroidDevice) | (mask & RuntimeArt) | (mask & RuntimeDalvik) | (mask & RuntimeJavaVm)
      == mask & KnownBits
  {
  }

  /** The classifier's mask is exactly the encoding of the reference classification. */
  lemma RuntimeFlagsMatchClassification(env: Environment)
    ensures RuntimeFlags(env) == Encode(Classify(env))
    ensures Decode(RuntimeFlags(env)) == Classify(env)
  {
    DecodeEncode(Classify(env));
  }

  /** Every mask the classifier yields is one of five values, all below 128. */
  lemma RuntimeFlagsOutcomes(env: Environment)
    ensures RuntimeFlags(env) in {
              RuntimeArt | RuntimeAndroidDevice,
              RuntimeDalvik | RuntimeAndroidDevice,
              RuntimeArt | RuntimeAndroidDevice | RuntimeJunit | RuntimeInstrumentation,
              RuntimeDalvik | RuntimeAndroidDevice | RuntimeJunit | RuntimeInstrumentation,
              RuntimeJunit | RuntimeRobolectric | RuntimeJavaVm
            }
    ensures RuntimeFlags(env) as int < 128
  {
  }

  /** Without JUnit the runtime name is never consulted: the process is on a device. */
  lemma WithoutJunitOnDevice(env: Environment)
    requires !env.junitPresent
    ensures Classify(env) == {VirtualMachine(env.sdkInt), AndroidDevice}
    ensures Decode(RuntimeFlags(env)) == {VirtualMachine(env.sdkInt), AndroidDevice}
    ensures forall name :: RuntimeFlags(env.(runtimeProperty := name)) == RuntimeFlags(env)
  {
    RuntimeFlagsMatchClassification(env);
  }

  /** The three outcomes when JUnit is on the class path. */
  lemma WithJunitBranches(env: Environment)
    requires env.junitPresent
    ensures RuntimeName(env) == "" ==>
              Decode(RuntimeFlags(env)) == {VirtualMachine(env.sdkInt), AndroidDevice}
    ensures RuntimeName(env) != "" && KotlinString.Contains(RuntimeName(env), "android") ==>
              Decode(RuntimeFlags(env)) == {VirtualMachine(env.sdkInt), AndroidDevice, Junit, Instrumentation}
    ensures RuntimeName(env) != "" && !KotlinString.Contains(RuntimeName(env), "android") ==>
              Decode(RuntimeFlags(env)) == {Junit, Robolectric, JavaVm}
  {
    RuntimeFlagsMatchClassification(env);
  }

  /** An unset `java.runtime.name` is treated as an empty one. */
  lemma UnsetRuntimeNameIsEmpty(env: Environment)
    requires env.runtimeProperty == None
    ensures RuntimeFlags(env) == RuntimeFlags(env.(runtimeProperty := Some("")))
  {
  }

  /**
   ART is set exactly from Lollipop on and Dalvik exactly before it, except in a
   Robolectric test, which carries neither; the two are never set together.
   */
  lemma VirtualMachineFlag(env: Environment)
    ensures Has(RuntimeFlags(env), Art) <==> env.sdkInt >= Lollipop && ContextOf(env) != RobolectricTest
    ensures Has(RuntimeFlags(env), Dalvik) <==> env.sdkInt < Lollipop && ContextOf(env) != RobolectricTest
    ensures !(Has(RuntimeFlags(env), Art) && Has(RuntimeFlags(env), Dalvik))
  {
    RuntimeFlagsMatchClassification(env);
  }

  /**
   A desktop Java VM and an Android device exclude each other, and exactly one
   of them is set; Robolectric implies JUnit on a Java VM; instrumentation
   implies JUnit on a device.
   */
  lemma FlagDependencies(env: Environment)
    ensures Has(RuntimeFlags(env), JavaVm) <==> !Has(RuntimeFlags(env), AndroidDevice)
    ensures Has(RuntimeFlags(env), JavaVm) <==> ContextOf(env) == RobolectricTest
    ensures Has(RuntimeFlags(env), Robolectric) ==> Has(RuntimeFlags(env), Junit) && Has(RuntimeFlags(env), JavaVm)
    ensures Has(RuntimeFlags(env), Instrumentation) ==> Has(RuntimeFlags(env), Junit) && Has(RuntimeFlags(env), AndroidDevice)
    ensures Has(RuntimeFlags(env), Junit) <==> ContextOf(env) != OnDevice
  {
    RuntimeFlagsMatchClassification(env);
  }

  /**
   The mask depends on the probes only through whether the SDK level reaches
   Lollipop, whether JUnit is present and the runtime name: every read of
   `runtimeFlags` under the same probe results gives the same mask.
   */
  lemma RuntimeFlagsDeterministic(env: Environment, other: Environment)
    requires (env.sdkInt >= Lollipop) == (other.sdkInt >= Lollipop)
    requires env.junitPresent == other.junitPresent
    requires RuntimeName(env) == RuntimeName(other)
    ensures RuntimeFlags(env) == RuntimeFlags(other)
  {
  }

  /** The RUNTIME_* constants of a list of named flags. */
  function Values(fs: seq<Flag>): seq<bv32>
  {
    seq(|fs|, j requires 0 <= j < |fs| => fs[j].Value())
  }

  /** `contains` with several flags is the conjunction of `contains` with each one. */
  lemma ContainsEveryFlag(env: Environment, flag: bv32, flags: seq<bv32>)
    ensures Contains(env, flag, flags) <==>
              Contains(env, flag, []) && forall j :: 0 <= j < |flags| ==> Contains(env, flags[j], [])
  {
  }

  /**
   Requesting fewer flags can only make `contains` more likely to hold: it
   depends on the extra flags only through the set of values they take, so
   their order and repetitions do not matter.
   */
  lemma ContainsAntitone(env: Environment, flag: bv32, flags: seq<bv32>, fewer: seq<bv32>)
    requires forall x :: x in fewer ==> x in flags
    ensures Contains(env, flag, flags) ==> Contains(env, flag, fewer)
  {
    ContainsEveryFlag(env, flag, flags);
    ContainsEveryFlag(env, flag, fewer);
    if Contains(env, flag, flags) {
      forall j | 0 <= j < |fewer|
        ensures Contains(env, fewer[j], [])
      {
        assert fewer[j] in fewer;
        var k :| 0 <= k < |flags| && flags[k] == fewer[j];
      }
    }
  }

  /** Reordering or repeating the extra flags does not change the answer. */
  lemma ContainsIgnoresOrderAndRepetition(env: Environment, flag: bv32, flags: seq<bv32>, others: seq<bv32>)
    requires forall x :: x in flags <==> x in others
    ensures Contains(env, flag, flags) == Contains(env, flag, others)
  {
    ContainsAntitone(env, flag, flags, others);
    ContainsAntitone(env, flag, others, flags);
  }

  /** Asking for no bits at all always succeeds. */
  lemma ContainsNothing(env: Environment)
    ensures Contains(env, 0, [])
  {
  }

  /**
   On named flags, `contains(f, g1, ..., gn)` holds exactly when all of
   `f, g1, ..., gn` belong to the classification: subset, not overlap.
   */
  lemma ContainsIsSubset(env: Environment, f: Flag, fs: seq<Flag>)
    ensures Contains(env, f.Value(), Values(fs)) <==> ({f} + set g | g in fs) <= Classify(env)
  {
    RuntimeFlagsMatchClassification(env);
    var vs := Values(fs);
    assert forall j :: 0 <= j < |fs| ==> (Includes(RuntimeFlags(env), vs[j]) <==> fs[j] in Classify(env));
    if ({f} + set g | g in fs) <= Classify(env) {
      forall j | 0 <= j < |vs|
        ensures Includes(RuntimeFlags(env), vs[j])
      {
        assert fs[j] in set g | g in fs;
      }
    } else {
      var g :| g in ({f} + set g | g in fs) && g !in Classify(env);
      if g != f {
        var j :| 0 <= j < |fs| && fs[j] == g;
        assert !Includes(RuntimeFlags(env), vs[j]);
      }
    }
  }

  /**
   On a device without JUnit the mask shares the device bit with
   `RUNTIME_ANDROID_DEVICE or RUNTIME_INSTRUMENTATION`, yet `contains` of the
   two is false, because instrumentation is not set.
   */
  lemma ContainsIsNotOverlap(sdkInt: int)
    ensures var env := Environment(sdkInt, false, None);
            && RuntimeFlags(env) & (RuntimeAndroidDevice | RuntimeInstrumentation) != 0
            && Contains(env, RuntimeAndroidDevice, [])
            && !Contains(env, RuntimeAndroidDevice, [RuntimeInstrumentation])
  {
  }
}
