/** Nullable pointers and the allocation primitives the capability code relies on
    (VIR_REALLOC_N, VIR_STRDUP, virAsprintf). Whether an allocation succeeds is not
    determined by anything the program can see, so each primitive chooses its outcome
    nondeterministically. */
module Memory {

  /** A C pointer that may be NULL: `None` is NULL. */
  datatype Option<T> = None | Some(value: T)

  /** One allocation attempt: `ok` is false when the allocator ran out of memory. */
  method Allocate() returns (ok: bool)
  {
    ok := *;
  }

  /** VIR_STRDUP(dest, src): the destination is cleared first; a NULL source leaves it NULL
      and succeeds; otherwise the copy either succeeds with an equal string or fails,
      leaving the destination NULL. */
  method Strdup(src: Option<string>) returns (ok: bool, dest: Option<string>)
    ensures ok ==> dest == src
    ensures !ok ==> src.Some? && dest.None?
  {
    dest := None;
    if src.None? {
      ok := true;
      return;
    }
    ok := Allocate();
    if ok {
      dest := Some(src.value);
    }
  }
}
