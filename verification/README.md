# ApplicationRuntime runtime classifier, in Dafny

This project models the runtime-environment classifier of the
`android-application-runtime` library. The `ApplicationRuntime` object
tells whether it runs on an Android device, in an instrumentation test on a
device, or in a Robolectric unit test on a desktop Java VM. It answers with a
Kotlin `Int` bitmask built from seven single-bit `RUNTIME_*` flags. The
`contains(flag, *flags)` query asks whether all of the given flags are set.

The classifier probes three facts about its process: the SDK level, whether
the class `org.junit.Assert` loads, and the `java.runtime.name` system
property. Here these facts are the fields of an `Environment` value. Every
operation is a pure function of that value.

Modules:

- `Masks` (`masks.dfy`): Kotlin `Int` masks as `bv32`. It holds the
  inclusion test `(mask and bits) == bits` and the left fold of `or` that
  `contains` runs over its arguments.
- `KotlinString` (`kotlin_string.dfy`): `CharSequence.contains`, proved
  equal to "the pattern occurs at some index".
- `ApplicationRuntime` (`application_runtime.dfy`): the `RUNTIME_*`
  constants, the named `Flag` datatype with its encoding to and from masks,
  the `Environment` record, the classifier `RuntimeFlagsImpl`, the
  `runtimeFlags` getter `RuntimeFlags`, and `Contains`.
- `RuntimeProperties` (`runtime_properties.dfy`): `Classify` is a
  reference classification over sets of named flags. It picks one of three
  execution contexts and gives that context's flags. The lemmas here tie the
  bitmask model to it.

A Kotlin `Int` is a 32-bit two's-complement value. Its `and` and `or` act
on the bit pattern only, so `bv32` models it exactly, negative values
included. The `@RuntimeFlag` annotation on `contains` is a lint hint only,
so `Contains` accepts any 32-bit value, as the Kotlin code does.

Two facts about the code shape the model:

- `runtimeFlags` is not cached. Its getter calls `getRuntimeFlagsImpl()` on
  every read (ApplicationRuntime.kt:102-103), so `RuntimeFlags` is a function
  of the environment. `RuntimeFlagsDeterministic` shows that repeated reads
  under the same probe results agree.
- The desktop-Java-VM branch (ApplicationRuntime.kt:165) returns
  `RUNTIME_JUNIT or RUNTIME_ROBOLECTRIC or RUNTIME_JAVA_VM` with no
  virtual-machine flag. `VirtualMachineFlag` states this.

## Model

| member | source | states |
|---|---|---|
| `RuntimeProperties.FlagValuesAreDistinctBits` | android-application-runtime/src/main/java/io/github/eaglesakura/android_application_runtime/ApplicationRuntime.kt:57-89 | the seven `RUNTIME_*` constants are pairwise disjoint, and together they fill exactly the bits 0x7F |
| `RuntimeProperties.DecodeEncode` | android-application-runtime/src/main/java/io/github/eaglesakura/android_application_runtime/ApplicationRuntime.kt:91-115 | building a mask from any set of named flags and reading it back gives the same set |
| `RuntimeProperties.EncodeDecode` | android-application-runtime/src/main/java/io/github/eaglesakura/android_application_runtime/ApplicationRuntime.kt:91-115 | reading the named flags of any mask and building a mask from them gives back the mask's known bits, with everything outside 0x7F dropped |
| `KotlinString.Contains` | android-application-runtime/src/main/java/io/github/eaglesakura/android_application_runtime/ApplicationRuntime.kt:159 | the substring test holds exactly when the pattern occurs at some index of the name |
| `ApplicationRuntime.RuntimeFlagsImpl` | android-application-runtime/src/main/java/io/github/eaglesakura/android_application_runtime/ApplicationRuntime.kt:137-168 | every mask is nonzero, below 128 and uses only the seven flag bits. Without JUnit it is the VM flag plus the device flag. ART and Dalvik never appear together. Exactly one of Java VM and device is set. Robolectric implies JUnit and Java VM. Instrumentation implies JUnit and device |
| `RuntimeProperties.RuntimeFlagsMatchClassification` | android-application-runtime/src/main/java/io/github/eaglesakura/android_application_runtime/ApplicationRuntime.kt:137-168 | the classifier's mask is the encoding of the reference classification (one context, then that context's flag group), and decoding it gives that classification |
| `RuntimeProperties.RuntimeFlagsOutcomes` | android-application-runtime/src/main/java/io/github/eaglesakura/android_application_runtime/ApplicationRuntime.kt:137-168 | every mask is one of five values: ART or Dalvik with the device flag, ART or Dalvik with device, JUnit and instrumentation, or JUnit with Robolectric and Java VM. All five are below 128 |
| `RuntimeProperties.WithoutJunitOnDevice` | android-application-runtime/src/main/java/io/github/eaglesakura/android_application_runtime/ApplicationRuntime.kt:146-150 | without JUnit the flags are exactly the VM flag and the device flag, and changing the runtime property does not change the mask |
| `RuntimeProperties.WithJunitBranches` | android-application-runtime/src/main/java/io/github/eaglesakura/android_application_runtime/ApplicationRuntime.kt:152-167 | with JUnit, an empty name gives {VM, device}; a name containing "android" gives {VM, device, JUnit, instrumentation}; any other name gives {JUnit, Robolectric, Java VM} |
| `RuntimeProperties.UnsetRuntimeNameIsEmpty` | android-application-runtime/src/main/java/io/github/eaglesakura/android_application_runtime/ApplicationRuntime.kt:152-158 | an unset `java.runtime.name` classifies the same as an empty one |
| `RuntimeProperties.VirtualMachineFlag` | android-application-runtime/src/main/java/io/github/eaglesakura/android_application_runtime/ApplicationRuntime.kt:139-167 | ART is set exactly when the SDK level is at least 21 and the context is not a Robolectric test; Dalvik exactly when the level is below 21 and the context is not a Robolectric test; never both |
| `RuntimeProperties.FlagDependencies` | android-application-runtime/src/main/java/io/github/eaglesakura/android_application_runtime/ApplicationRuntime.kt:146-167 | Java VM is set exactly when the device flag is not, which is exactly in a Robolectric test. Robolectric implies JUnit and Java VM. Instrumentation implies JUnit and device. JUnit is set exactly outside the plain on-device context, that is, in an instrumentation or a Robolectric test |
| `RuntimeProperties.RuntimeFlagsDeterministic` | android-application-runtime/src/main/java/io/github/eaglesakura/android_application_runtime/ApplicationRuntime.kt:102-103 | two reads of `runtimeFlags` agree whenever the SDK level is on the same side of 21, JUnit presence is the same and the runtime name is the same |
| `Masks.CombineFlags` | android-application-runtime/src/main/java/io/github/eaglesakura/android_application_runtime/ApplicationRuntime.kt:130-133 | the OR fold over `flag` and the extra flags includes every one of them |
| `Masks.CombineFlagsLeast` | android-application-runtime/src/main/java/io/github/eaglesakura/android_application_runtime/ApplicationRuntime.kt:130-133 | every mask that includes `flag` and each extra flag includes their fold: the fold is the least such mask |
| `ApplicationRuntime.Contains` | android-application-runtime/src/main/java/io/github/eaglesakura/android_application_runtime/ApplicationRuntime.kt:126-135 | `contains` holds exactly when the runtime flags include `flag` and each of the extra flags |
| `RuntimeProperties.ContainsEveryFlag` | android-application-runtime/src/main/java/io/github/eaglesakura/android_application_runtime/ApplicationRuntime.kt:126-135 | `contains` with several flags holds exactly when `contains` holds for each flag on its own |
| `RuntimeProperties.ContainsAntitone` | android-application-runtime/src/main/java/io/github/eaglesakura/android_application_runtime/ApplicationRuntime.kt:130-134 | dropping extra flags keeps a true `contains` true; in particular `contains(f, g...)` implies `contains(f)` |
| `RuntimeProperties.ContainsIgnoresOrderAndRepetition` | android-application-runtime/src/main/java/io/github/eaglesakura/android_application_runtime/ApplicationRuntime.kt:130-134 | two lists of extra flags with the same values give the same answer, whatever their order and repetitions |
| `RuntimeProperties.ContainsNothing` | android-application-runtime/src/main/java/io/github/eaglesakura/android_application_runtime/ApplicationRuntime.kt:130-134 | `contains(0)` holds in every environment |
| `RuntimeProperties.ContainsIsSubset` | android-application-runtime/src/main/java/io/github/eaglesakura/android_application_runtime/ApplicationRuntime.kt:117-135 | on named flags, `contains(f, g1, ..., gn)` holds exactly when {f, g1, ..., gn} is a subset of the classification |
| `RuntimeProperties.ContainsIsNotOverlap` | android-application-runtime/src/main/java/io/github/eaglesakura/android_application_runtime/ApplicationRuntime.kt:126-135 | on a device without JUnit the mask overlaps `RUNTIME_ANDROID_DEVICE or RUNTIME_INSTRUMENTATION`. Still, `contains(ANDROID_DEVICE, INSTRUMENTATION)` is false while `contains(ANDROID_DEVICE)` is true |

## Left out

- `pid` and `killSelf` (ApplicationRuntime.kt:25-39): a platform call that kills the process, then an endless spin. There is no terminating behaviour to state.
- The `ROBOLECTRIC` property (ApplicationRuntime.kt:47-52): a class-loading probe with no logic of its own. The classifier does not use it.
- Class loading and the system-property read: `Class.forName("org.junit.Assert")` becomes the boolean `junitPresent`, and `System.getProperty("java.runtime.name")` becomes the optional string `runtimeProperty`.
- `toLowerCase(Locale.getDefault())`: its rules depend on the locale library, so `runtimeProperty` holds the name already lower-cased.
- The SDK level is an unbounded `int`. The classifier only compares it with 21. For every 32-bit value, `sdkInt >= 21` on an unbounded int agrees with Kotlin's 32-bit `>=`.
- `HandlerExtensions.kt`: the UI-thread handler, thread-identity assertions, `postOrRun`, `AsyncHandler` and `runBlockingOnUiThread`. These are about thread identity, message loops and coroutine blocking on the Android runtime.
- `RuntimePermissions.kt`: thin wrappers around `Settings`, `Intent`/`Uri` and `AppOpsManager`, gated on the SDK version.
- `build.gradle.kts` of the dependency manifest: a build script with no behaviour.
