# Domain capability builders of libvirt's domain capabilities test

This project models, in Dafny, the part of libvirt's `tests/domaincapstest.c` that fills
in a domain capability descriptor (`virDomainCaps`) before it is formatted:

- `fillStringValues`, which appends strings to the loader's growable path list one at a
  time (grow the array by one slot, copy the string, bump `nvalues`) and stops at the first
  allocation failure;
- `SET_ALL_BITS` and `fillAllCaps`, the "everything supported" fixture: every `supported`
  flag on, every enum word all ones, `maxvcpus` 255, and the paths `/foo/bar` and
  `/tmp/my_path` appended;
- `fillQemuCaps`, the post-processing over a parsed QEMU capability file: machine
  resolution, the generic fill, the forced PCI backends DEFAULT, KVM and VFIO, and the
  replacement of the loader list (freed entry by entry from the end, then refilled with
  the AAVMF and OVMF firmware paths);
- the per-test dispatch of `test_virDomainCapsFormat` over `CAPS_NONE`, `CAPS_ALL` and
  `CAPS_QEMU`.

Layout:

- `memory.dfy` (module `Memory`): nullable pointers as `Option`, and the allocation
  primitives. An allocation succeeds or fails nondeterministically; `Strdup` is
  `VIR_STRDUP`, including its rule that a NULL source yields NULL and succeeds.
- `caps_enum.dfy` (module `CapsEnum`): a `virDomainCapsEnum` is its `values` word, a
  `bv32`; enum value `e` (a `bv5`, so it always has a bit) is a member when bit `e` is set.
  `SET_ALL_BITS` is the all-ones word and `VIR_DOMAIN_CAPS_ENUM_SET` adds bits.
- `domain_caps.dfy` (module `DomainCapabilities`): the descriptor as a class. The embedded
  os/loader, disk and hostdev structs are datatype fields that the builders update field
  by field. The loader's `virDomainCapsStringValues` is a class around an
  `array<Option<string>>` and `nvalues`, with the list itself given by `Contents()`.
- `domain_caps_test.dfy` (module `DomainCapsTest`): the builders and the dispatch.

The external calls of `fillQemuCaps` are parameters. `qemuTestParseCapabilities` is a
function from (capability name, architecture) to an optional `QemuCaps`. A `QemuCaps`
carries the result of `virQEMUCapsGetCanonicalMachine` as a function, the default machine,
and what `virQEMUCapsFillDomainCaps` leaves in the descriptor.

A requested machine that has no canonical name is not an error. `VIR_STRDUP` of a NULL
source succeeds and leaves the machine NULL, so lines 117-120 of
`tests/domaincapstest.c` fall back to the probe's default machine.

## Model

| member | source | states |
|---|---|---|
| Memory.Strdup | tests/domaincapstest.c:112-120 | a copy succeeds with the source string; it can fail only for a non-NULL source, and then leaves NULL |
| CapsEnum.Add | tests/domaincapstest.c:131-134 | after adding value e, the members are exactly the old members plus e |
| CapsEnum.SetAllBits | tests/domaincapstest.c:34-35 | after SET_ALL_BITS every enum value with a bit in the word is a member, whatever the word held |
| CapsEnum.EnumSet | tests/domaincapstest.c:131-134 | the members afterwards are exactly the earlier members and the listed values |
| CapsEnum.FullIffAllOnes | tests/domaincapstest.c:34-35 | a word holds every enum value exactly when it is all ones, so "all supported" agrees with the 0xff memset |
| CapsEnum.SetAllBitsIdempotent | tests/domaincapstest.c:34-35 | applying SET_ALL_BITS twice gives the same word as once |
| CapsEnum.SetAllCommutesWithEnumSet | tests/domaincapstest.c:34-35 | setting all bits and adding single values commute |
| DomainCapabilities.Strings | tests/domaincapstest.c:45-51 | the list read from a run of non-NULL slots has one entry per slot, entry i being slot i's string |
| DomainCapabilities.StringValues.constructor | tests/domaincapstest.c:186-188 | a new string list is empty |
| DomainCapabilities.StringValues.Grow | tests/domaincapstest.c:46 | a successful VIR_REALLOC_N leaves a fresh array of exactly nvalues + 1 slots and the same list; a failed one changes nothing |
| DomainCapabilities.StringValues.CopyIntoNext | tests/domaincapstest.c:47 | the first unused slot receives the copy, or NULL on failure; the list and the other slots are unchanged |
| DomainCapabilities.StringValues.FreeAll | tests/domaincapstest.c:138-139 | the free loop ends with nvalues 0 and an empty list, every freed slot NULL and the array kept |
| DomainCapabilities.DomainCaps.constructor | tests/domaincapstest.c:186-188 | a new descriptor carries the given emulator, machine, arch and type, supports nothing, has empty enum sets, no loader path and maxvcpus 0 |
| DomainCapsTest.FillStringValues | tests/domaincapstest.c:37-56 | on success the list is the old list followed by the arguments in order; on failure it returns -1 and the list is the old list followed by a proper prefix of the arguments |
| DomainCapsTest.FillAllCaps | tests/domaincapstest.c:58-89 | maxvcpus 255, os and loader supported with full type and readonly sets; on success disk and hostdev supported with all five hostdev sets and both disk sets full and the two fixture paths appended in order; on failure -1 with disk and hostdev untouched and a prefix of the paths appended; the machine is never changed |
| DomainCapsTest.ResolveMachine | tests/domaincapstest.c:112-120 | a requested machine with a canonical name gets that name; with no request an existing machine is kept; otherwise the probe's default is used |
| DomainCapsTest.FillDomainCaps | tests/domaincapstest.c:122-124 | the generic fill leaves the maxvcpus, blocks and loader list the probe computes and does not touch the machine; it returns -1 exactly when the probe says it fails |
| DomainCapsTest.FillQemuCaps | tests/domaincapstest.c:95-152 | a parse failure returns -1 with the descriptor untouched; on success the machine is the resolved one, the generic fill was run for that machine and the configured loader paths and succeeded, its maxvcpus, os, disk and hostdev values stand except that the PCI backends are its own plus DEFAULT, KVM and VFIO and nothing else, and the loader list is exactly the AAVMF path then the OVMF path |
| DomainCapsTest.OverrideProbedValues | tests/domaincapstest.c:131-145 | the PCI backends become the old ones plus DEFAULT, KVM and VFIO, the machine, maxvcpus, os, disk and other hostdev sets are kept, and on success the loader list is exactly the AAVMF path then the OVMF path |
| DomainCapsTest.BuildTestCaps | tests/domaincapstest.c:173-206 | CAPS_NONE yields the descriptor exactly as allocated; CAPS_ALL yields every block supported, every set full and exactly the two fixture paths; CAPS_QEMU fails when the capability file cannot be parsed, and otherwise yields what fillQemuCaps promises, starting from the test case's machine and the configured loader paths: the resolved machine, the successful generic fill's values, its PCI backends plus exactly DEFAULT, KVM and VFIO, and exactly the two firmware paths |

## Left out

- Formatting (`virDomainCapsFormat`) and the comparison with the expected XML file
  (`virtTestCompareToFile`) are not modelled. Their sources are not part of this model, and
  nothing is promised about the rendered text.
- The paths built with `virAsprintf` are not modelled. Each is only an allocation that may
  fail. `qemuTestParseCapabilities` is handed the capability name and architecture instead
  of the file path, and `virArchToString` is left out.
- The architecture and virtualization type are opaque numeric codes.
- `qemuTestParseCapabilities`, `virQEMUCapsGetCanonicalMachine`,
  `virQEMUCapsGetDefaultMachine` and `virQEMUCapsFillDomainCaps` are external and not
  modelled. Their results are parameters. The generic fill is modelled as replacing
  maxvcpus, the blocks and the loader list with values that depend on the parsed file, the
  descriptor's machine at the time of the call and the configured loader paths, on success
  as well as on failure.
- DomainCapsTest.FillDomainCaps: assumes that `virQEMUCapsFillDomainCaps` leaves the
  descriptor's machine (and its path, arch and type) alone. Its source is not part of this
  model.
- Of the driver configuration (`virQEMUDriverConfig`, passed as `capsOpaque`), only the
  loader list `cfg->loader` / `cfg->nloader` handed to the generic fill is modelled, as a
  sequence of paths. Its other fields are not used by the code modelled here.
- The header `domain_capabilities.h` is not part of this model, so the members of each enum
  are unknown. The enum properties are stated for every bit position of the 32-bit word.
  They therefore cover every enum of at most 32 values. Only the PCI backend values that the
  code names (DEFAULT 0, KVM 1, VFIO 2) appear.
- CapsEnum.EnumSet: takes the adding reading of `VIR_DOMAIN_CAPS_ENUM_SET`, so the listed
  bits are ORed into the word. `virDomainCapsEnumSet` is not part of this model, and
  neither is its check for values too large for the word, since the bit index type rules
  such values out. FillQemuCaps therefore keeps the generic fill's PCI backends.
- Reference counting and freeing (`virObjectUnref`, `VIR_FREE` of the path and the XML) are
  not modelled, and neither is the leak of the previous machine string overwritten at line
  113.
- Memory that `VIR_REALLOC_N` adds is indeterminate in C. It is modelled as NULL; the model
  never reads such a slot before writing it.
- A list whose array is still NULL is modelled as an empty array.
- The `WITH_QEMU` conditional, the `DO_TEST` / `DO_TEST_QEMU` macros, `mymain` and
  `VIRT_TEST_MAIN` are test registration and are not modelled. The model always takes
  `CAPS_QEMU` as compiled in.
- The NULL-terminated varargs of `fillStringValues` and the argument list of the
  `VIR_DOMAIN_CAPS_ENUM_SET` macro, which counts its own arguments, are replaced by
  explicit sequences.
