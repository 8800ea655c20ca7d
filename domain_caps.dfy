/** The domain capability descriptor (virDomainCaps) as the capability test fills it in:
    identity fields, the os/loader, disk and hostdev blocks with their `supported` flags
    and enum sets, `maxvcpus`, and the loader's growable list of firmware paths. */
module DomainCapabilities {
  import opened Memory
  import opened CapsEnum

  /** An unsigned int. */
  type UInt = x: int | 0 <= x < 0x1_0000_0000

  /** virDomainCapsLoader without its `values` list, which is DomainCaps.loaderValues. */
  datatype Loader = Loader(supported: bool, loaderType: Mask, readonly: Mask)

  /** virDomainCapsOS. */
  datatype Os = Os(supported: bool, loader: Loader)

  /** virDomainCapsDeviceDisk. */
  datatype Disk = Disk(supported: bool, diskDevice: Mask, bus: Mask)

  /** virDomainCapsDeviceHostdev. */
  datatype Hostdev = Hostdev(supported: bool, mode: Mask, startupPolicy: Mask,
                             subsysType: Mask, capsType: Mask, pciBackend: Mask)

  /** The blocks of a freshly allocated descriptor: nothing supported, every set empty. */
  const UnsupportedOs := Os(false, Loader(false, NoBits, NoBits))
  const UnsupportedDisk := Disk(false, NoBits, NoBits)
  const UnsupportedHostdev := Hostdev(false, NoBits, NoBits, NoBits, NoBits, NoBits)

  /** The strings held by slots that are all non-NULL, in slot order. */
  function Strings(slots: seq<Option<string>>): (r: seq<string>)
    requires forall i :: 0 <= i < |slots| ==> slots[i].Some?
    ensures |r| == |slots|
    ensures forall i :: 0 <= i < |slots| ==> slots[i] == Some(r[i])
  {
    if slots == [] then [] else [slots[0].value] + Strings(slots[1..])
  }

  /** virDomainCapsStringValues: a heap array of string pointers and the count in use. The
      array may be longer than `nvalues`; the slots beyond it are not part of the list. */
  class StringValues {
    var values: array<Option<string>>
    var nvalues: nat

    ghost predicate Valid()
      reads this, values
    {
      nvalues <= values.Length &&
      forall i :: 0 <= i < nvalues ==> values[i].Some?
    }

    /** The list: the strings in slots 0 .. nvalues - 1. */
    function Contents(): (s: seq<string>)
      reads this, values
      requires Valid()
      ensures |s| == nvalues
      ensures forall i :: 0 <= i < nvalues ==> values[i] == Some(s[i])
    {
      Strings(values[..nvalues])
    }

    /** The zero-filled struct: no array (modelled as an empty one) and no entries. */
    constructor ()
      ensures Valid() && fresh(values) && Contents() == []
    {
      values := new Option<string>[0];
      nvalues := 0;
    }

    /** VIR_REALLOC_N(values, nvalues + 1): on success the array is replaced by one of
        exactly nvalues + 1 slots that keeps the prefix realloc preserves; on failure
        nothing changes. The list itself is the same either way. */
    method Grow() returns (ok: bool)
      requires Valid()
      modifies this
      ensures Valid() && nvalues == old(nvalues) && Contents() == old(Contents())
      ensures ok ==> fresh(values) && values.Length == nvalues + 1
      ensures !ok ==> values == old(values)
    {
      ok := Allocate();
      if !ok {
        return;
      }
      var kept := values[..];
      var grown := new Option<string>[nvalues + 1](i => if 0 <= i < |kept| then kept[i] else None);
      assert grown[..nvalues] == kept[..nvalues];
      values := grown;
    }

    /** VIR_STRDUP(values[nvalues], str): the first unused slot receives a copy of `str`,
        or NULL when the copy fails. No slot of the list changes. */
    method CopyIntoNext(str: string) returns (ok: bool)
      requires Valid() && nvalues < values.Length
      modifies values
      ensures Valid() && Contents() == old(Contents())
      ensures values[nvalues] == if ok then Some(str) else None
      ensures forall i :: 0 <= i < values.Length && i != nvalues ==> values[i] == old(values[i])
    {
      var copy;
      ok, copy := Strdup(Some(str));
      values[nvalues] := copy;
      assert values[..nvalues] == old(values[..nvalues]);
    }

    /** The free loop of fillQemuCaps: while entries remain, the count drops by one and the
        entry it no longer covers is freed and its slot set to NULL. The list ends empty and
        the array itself is kept. */
    method FreeAll()
      requires Valid()
      modifies this, values
      ensures Valid() && values == old(values) && nvalues == 0 && Contents() == []
      ensures forall i :: 0 <= i < old(nvalues) ==> values[i].None?
    {
      ghost var count := nvalues;
      while nvalues > 0
        invariant Valid() && values == old(values)
        invariant nvalues <= count == old(nvalues)
        invariant forall i :: nvalues <= i < count ==> values[i].None?
      {
        nvalues := nvalues - 1;
        values[nvalues] := None;
      }
    }

    /** Replaces the whole list by `list` in a newly allocated array. */
    method Assign(list: seq<string>)
      modifies this
      ensures Valid() && fresh(values) && Contents() == list
    {
      values := new Option<string>[|list|](i => if 0 <= i < |list| then Some(list[i]) else None);
      nvalues := |list|;
    }
  }

  /** virDomainCaps. The os/loader, disk and hostdev blocks are structs embedded in the
      descriptor, so each is a value that the builders replace field by field; the loader's
      string list is the object `loaderValues`, which only this descriptor holds. The
      architecture and virtualization type are opaque codes here. */
  class DomainCaps {
    const path: string
    var machine: Option<string>
    const arch: nat
    const virtType: nat
    var maxvcpus: UInt
    var os: Os
    var disk: Disk
    var hostdev: Hostdev
    const loaderValues: StringValues

    ghost predicate Valid()
      reads this, loaderValues, loaderValues.values
    {
      loaderValues.Valid()
    }

    /** The state virDomainCapsNew leaves: no block supported, every enum set empty,
        no loader path and maxvcpus 0. */
    predicate Unpopulated()
      reads this, loaderValues, loaderValues.values
      requires Valid()
    {
      maxvcpus == 0 && os == UnsupportedOs && disk == UnsupportedDisk &&
      hostdev == UnsupportedHostdev && loaderValues.Contents() == []
    }

    /** virDomainCapsNew(path, machine, arch, virttype) once its allocations succeeded. */
    constructor (path: string, machine: Option<string>, arch: nat, virtType: nat)
      ensures Valid() && fresh(loaderValues) && fresh(loaderValues.values)
      ensures this.path == path && this.machine == machine
      ensures this.arch == arch && this.virtType == virtType
      ensures Unpopulated()
    {
      this.path := path;
      this.machine := machine;
      this.arch := arch;
      this.virtType := virtType;
      maxvcpus := 0;
      os := UnsupportedOs;
      disk := UnsupportedDisk;
      hostdev := UnsupportedHostdev;
      loaderValues := new StringValues();
    }
  }
}
