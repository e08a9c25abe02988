# Heap-to-stack buffer round trip, modelled in Dafny

The program is one C routine, `main` in `main.c`. It allocates a 24-byte heap
buffer and gives up with a diagnostic if `malloc` returns NULL. Otherwise it
zero-fills the buffer with `bzero` and copies the literal
`"HelloT1mzhouCSDNTEST"` into its start with `strcpy`. It then copies all 24
bytes into a stack array `buf` through a cursor `tmp` that advances one byte
per step. Last, it frees the heap buffer and sets `test_data` to NULL. Both
paths return 0.

The model has two modules:

- `CString` (`cstring.dfy`): the C library routines `bzero` and `strcpy`,
  as methods on `array<char>` specified by what they leave in the buffer
  (`Zeros`, `StrcpyResult`). `CStrLen` is the search for the terminator
  that `strcpy` performs, the value `strlen` would return; the program
  itself never calls `strlen`. The lemmas relate these: a terminated
  string's length, reading back what `strcpy` wrote, and `strcpy` into a
  zero-filled buffer.
- `RoundTrip` (`main.dfy`): `main` itself, as the method `Run`. Its inputs
  are whether `malloc` succeeds and whatever bytes the new heap block and the
  uninitialised `buf` happen to hold. It returns the exit status, the trace
  of library calls made (each `bzero` and `strcpy` entry is produced by the
  call itself and records the heap buffer as the call left it), the final contents of `buf` (None when the routine
  returned before declaring it) and the pointer `test_data` as it is on
  return. The cursor `tmp` is an index into the heap buffer. The copy loop's
  invariants say that `tmp == i`, that the heap buffer does not change, and
  that `buf[..i]` equals the heap buffer's first `i` bytes.

The literal has 20 characters (`main.c:14`). So `strcpy` writes bytes 0..19,
puts the terminator at byte 20, and leaves bytes 21..23 zero.

## Model

| member | source | states |
|---|---|---|
| CString.CStrLen | main.c:14-15 | how far `strcpy` copies before the terminator: an index holding NUL with no NUL before it |
| CString.CStrLenOfTerminated | main.c:14 | a NUL-free string followed by NUL (and anything after) has C length equal to its own length |
| CString.Bzero | main.c:12 | `bzero(a, n)` makes the first n bytes NUL and keeps the rest |
| CString.Strcpy | main.c:15 | `strcpy(dst, src)` writes src up to and including its terminator into dst and keeps the rest of dst; it requires that the copy fits and the buffers are distinct |
| CString.StrcpyTerminated | main.c:15 | `strcpy` of a terminated NUL-free string leaves the string, its NUL, then dst's bytes past that point |
| CString.ReadBackAfterStrcpy | main.c:14-15 | reading the destination as a C string after `strcpy` gives back exactly the copied string |
| CString.StrcpyIntoZeros | main.c:12-15 | `strcpy` into a zero-filled buffer gives the string followed only by NULs up to the buffer's width |
| RoundTrip.FailureCallCounts | main.c:6-10 | when `malloc` fails, the trace holds one allocation, no release, exactly one diagnostic and no `bzero` or `strcpy` |
| RoundTrip.SuccessCallCounts | main.c:6-24 | when `malloc` succeeds, the trace holds one allocation, exactly one release and no diagnostic |
| RoundTrip.LiteralFits | main.c:14-15 | the literal holds no NUL and is 20 characters long, so its `strcpy` needs 21 of the 24 bytes |
| RoundTrip.HeapLayout | main.c:12-15 | after `bzero` then `strcpy`, bytes 0..19 are the literal and bytes 20..23 are NUL; reading the buffer as a C string gives the literal |
| RoundTrip.MallocBlock | main.c:6-7 | `malloc` returns NULL exactly when it fails, otherwise a fresh 24-byte block holding leftover bytes; either way it reports one allocation call |
| RoundTrip.CallBzero | main.c:12 | `bzero` zeroes the first n bytes and keeps the rest, and the call it reports carries exactly the buffer it left |
| RoundTrip.CallStrcpy | main.c:15 | `strcpy` leaves `StrcpyResult` of the old buffer, and the call it reports carries the C string copied and exactly the buffer it left |
| RoundTrip.StringArray | main.c:14 | `char test[]` holds the literal's characters followed by NUL |
| RoundTrip.PrepareHeap | main.c:12-15 | the zero-fill and the copy turn any 24-byte heap buffer into the literal padded with NULs; the calls reported are `bzero` leaving 24 NULs, then `strcpy` of the literal leaving the padded literal |
| RoundTrip.Run | main.c:5-27 | status is always 0 and `test_data` ends NULL. On failure, only malloc and the diagnostic happen and `buf` is never filled. On success, the calls are malloc, bzero (leaving 24 NULs), strcpy of the literal (leaving it padded with NULs), free, so one acquisition and exactly one release. `buf` equals the heap buffer byte for byte, and it holds the literal as a C string |

## Left out

- The real allocator. `malloc` is a flag plus arbitrary leftover bytes. `free` is a `Free` entry in the call trace followed by clearing the pointer. Use after free and double free are therefore visible only as trace contents, not as heap state.
- `printf`: the diagnostic shows up as a `Printf` entry in the trace. Nothing is written anywhere.
- The process exit itself: `Run` returns the status `main` returns.
- The library bodies of `bzero` and `strcpy`: they are specified by their effect on the array. C's undefined cases for `strcpy` (overflow, overlapping buffers) are preconditions.
- C's `char` width and signedness: characters are Dafny `char`s. Only ASCII and NUL occur, so no byte value wraps around.
- Pointer arithmetic: the cursor `tmp` is an index into the heap array, and `*tmp++` is a read at that index followed by an increment.
